/** End-to-end order: what the spy records for a queue is what arrived at the queue, in order,
    with nothing lost, duplicated or reordered on the way. */
module Order {
  import opened Basics
  import opened Config
  import opened Pipeline
  import Shutdown

  /** The packets recorded as received, in the order of the spy's history. */
  function Received(history: seq<Entry>): seq<Packet> {
    if history == [] then []
    else
      var last := history[|history| - 1];
      Received(history[..|history| - 1]) + (if last.ReceivedEntry? then [last.packet] else [])
  }

  /** The packet the process loop has taken and not yet recorded. */
  function LoopHeld(loop: Loop): seq<Packet> {
    if loop.Taken? then [loop.packet] else []
  }

  /** Everything that consumers have sent: recorded, held by the loop, or still in the channel. */
  function Sequenced(e: EngineState, n: Net): seq<Packet> {
    Received(e.history) + LoopHeld(e.loop) + n.msgChan
  }

  /** What a consumer, live or not, has been given and has not sent. */
  function InFlight(c: Consumer): seq<Packet> {
    (if c.held.Some? then [c.held.value] else []) + c.buffer
  }

  /** What the consumer of queue q holds; nothing when q has none. */
  function HeldFor(q: string, consumers: seq<Consumer>): seq<Packet> {
    if consumers == [] then []
    else if consumers[|consumers| - 1].queue == q then InFlight(consumers[|consumers| - 1])
    else HeldFor(q, consumers[..|consumers| - 1])
  }

  ghost predicate Tagged(consumers: seq<Consumer>) {
    forall i, p :: 0 <= i < |consumers| && p in InFlight(consumers[i]) ==> p.msg.queue == consumers[i].queue
  }

  function Queues(consumers: seq<Consumer>): set<string> {
    set c | c in consumers :: c.queue
  }

  /** Queue q has at most one consumer. */
  ghost predicate AtMostOne(q: string, consumers: seq<Consumer>) {
    forall i, j :: 0 <= i < j < |consumers| && consumers[i].queue == q ==> consumers[j].queue != q
  }

  ghost predicate OneConsumerPerQueue(consumers: seq<Consumer>) {
    forall q :: AtMostOne(q, consumers)
  }

  /** Until some Start is retried, a Start under way has only new queues left to subscribe. */
  ghost predicate FreshTodo(f: Flags, callers: seq<Caller>) {
    !f.retried ==> forall t :: 0 <= t < |callers| && callers[t].Starting? ==>
      NoDuplicates(callers[t].todo) && forall q :: q in callers[t].todo ==> q !in f.subscribed
  }

  /** Arrivals at q = sent ++ held by q's consumer ++ not yet delivered. */
  ghost predicate InOrder(q: string, n: Net, e: EngineState) {
    Of(q, n.arrived) == Of(q, Sequenced(e, n)) + HeldFor(q, n.consumers) + Of(q, n.backlog)
  }

  ghost predicate Inv(s: State) {
    && Tagged(s.net.consumers)
    && s.flags.subscribed == Queues(s.net.consumers)
    && FreshTodo(s.flags, s.callers)
    && (!s.flags.retried ==> OneConsumerPerQueue(s.net.consumers))
  }

  /** While q has at most one consumer, its packets are in order. */
  ghost predicate Ordered(q: string, s: State) {
    AtMostOne(q, s.net.consumers) ==> InOrder(q, s.net, s.eng)
  }

  lemma {:induction false} HeldForNone(q: string, consumers: seq<Consumer>)
    requires forall i :: 0 <= i < |consumers| ==> consumers[i].queue != q
    ensures HeldFor(q, consumers) == []
  {
    if consumers != [] {
      HeldForNone(q, consumers[..|consumers| - 1]);
    }
  }

  lemma {:induction false} HeldForAt(consumers: seq<Consumer>, i: nat)
    requires i < |consumers| && AtMostOne(consumers[i].queue, consumers)
    ensures HeldFor(consumers[i].queue, consumers) == InFlight(consumers[i])
  {
    if i < |consumers| - 1 {
      HeldForAt(consumers[..|consumers| - 1], i);
    }
  }

  lemma {:induction false} HeldForElsewhere(q: string, consumers: seq<Consumer>, i: nat, c: Consumer)
    requires i < |consumers| && consumers[i].queue == c.queue != q
    ensures HeldFor(q, consumers[i := c]) == HeldFor(q, consumers)
  {
    if i < |consumers| - 1 {
      HeldForElsewhere(q, consumers[..|consumers| - 1], i, c);
      assert consumers[i := c][..|consumers| - 1] == consumers[..|consumers| - 1][i := c];
    } else {
      assert consumers[i := c][..|consumers| - 1] == consumers[..|consumers| - 1];
    }
  }

  /** Enqueueing at the broker extends arrivals and backlog alike. */
  lemma EnqueueKeepsOrder(q: string, n: Net, e: EngineState, ps: seq<Packet>)
    requires InOrder(q, n, e)
    ensures InOrder(q, Enqueue(n, ps), e)
  {
    SelectConcat(OnQueue(q), n.arrived, ps);
    SelectConcat(OnQueue(q), n.backlog, ps);
  }

  lemma SameQueueAt(consumers: seq<Consumer>, i: nat, c: Consumer, q: string)
    requires i < |consumers| && consumers[i].queue == c.queue
    ensures AtMostOne(q, consumers[i := c]) <==> AtMostOne(q, consumers)
  {
    assert forall j :: 0 <= j < |consumers| ==> consumers[i := c][j].queue == consumers[j].queue;
  }

  /** The consumer of q takes over the oldest packet of q's backlog. */
  lemma DeliverMoves(n: Net, closed: bool, i: nat, k: nat)
    requires ConsumerEnabled(n, closed, i, Deliver(k)) && AtMostOne(n.consumers[i].queue, n.consumers)
    ensures var n', q := ConsumerDo(n, closed, i, Deliver(k)), n.consumers[i].queue;
            HeldFor(q, n'.consumers) + Of(q, n'.backlog) == HeldFor(q, n.consumers) + Of(q, n.backlog)
  {
    var n', c := ConsumerDo(n, closed, i, Deliver(k)), n.consumers[i];
    var q, p, before, after := c.queue, n.backlog[k], n.backlog[..k], n.backlog[k + 1..];
    SameQueueAt(n.consumers, i, n'.consumers[i], q);
    HeldForAt(n.consumers, i);
    HeldForAt(n'.consumers, i);
    SelectNone(OnQueue(q), before);
    SplitAt(n.backlog, k);
    SelectFirst(OnQueue(q), before, p, after);
    assert InFlight(n'.consumers[i]) == InFlight(c) + [p];
  }

  lemma DeliverKeepsOrder(q: string, n: Net, e: EngineState, closed: bool, i: nat, k: nat)
    requires AtMostOne(q, n.consumers) && InOrder(q, n, e) && ConsumerEnabled(n, closed, i, Deliver(k))
    ensures InOrder(q, ConsumerDo(n, closed, i, Deliver(k)), e)
  {
    var n' := ConsumerDo(n, closed, i, Deliver(k));
    if q == n.consumers[i].queue {
      DeliverMoves(n, closed, i, k);
      Associative(Of(q, Sequenced(e, n)), HeldFor(q, n.consumers), Of(q, n.backlog));
      Associative(Of(q, Sequenced(e, n)), HeldFor(q, n'.consumers), Of(q, n'.backlog));
    } else {
      HeldForElsewhere(q, n.consumers, i, n'.consumers[i]);
      SelectSkip(OnQueue(q), n.backlog, k);
    }
  }

  lemma SendExtends(n: Net, e: EngineState, closed: bool, i: nat)
    requires Tagged(n.consumers) && ConsumerEnabled(n, closed, i, Send)
    ensures var p := n.consumers[i].held.value;
            && p.msg.queue == n.consumers[i].queue
            && InFlight(n.consumers[i]) == [p] + InFlight(ConsumerDo(n, closed, i, Send).consumers[i])
            && Sequenced(e, ConsumerDo(n, closed, i, Send)) == Sequenced(e, n) + [p]
  {
    assert n.consumers[i].held.value in InFlight(n.consumers[i]);
  }

  /** The consumer of q passes the packet it holds to the end of what has been sent. */
  lemma SendKeepsOrder(q: string, n: Net, e: EngineState, closed: bool, i: nat)
    requires Tagged(n.consumers) && AtMostOne(q, n.consumers) && InOrder(q, n, e)
    requires ConsumerEnabled(n, closed, i, Send)
    ensures InOrder(q, ConsumerDo(n, closed, i, Send), e)
  {
    var n', c := ConsumerDo(n, closed, i, Send), n.consumers[i];
    SendExtends(n, e, closed, i);
    SelectSnoc(OnQueue(q), Sequenced(e, n), c.held.value);
    if q == c.queue {
      SameQueueAt(n.consumers, i, n'.consumers[i], q);
      HeldForAt(n.consumers, i);
      HeldForAt(n'.consumers, i);
      Associative(Of(q, Sequenced(e, n)), [c.held.value], InFlight(n'.consumers[i]));
    } else {
      HeldForElsewhere(q, n.consumers, i, n'.consumers[i]);
    }
  }

  /** A consumer that keeps what it has been given holds the same for its queue. */
  lemma StayingHolds(q: string, consumers: seq<Consumer>, i: nat, c: Consumer)
    requires i < |consumers| && AtMostOne(q, consumers)
    requires c.queue == consumers[i].queue && InFlight(c) == InFlight(consumers[i])
    ensures HeldFor(q, consumers[i := c]) == HeldFor(q, consumers)
  {
    if q == c.queue {
      SameQueueAt(consumers, i, c, q);
      HeldForAt(consumers, i);
      HeldForAt(consumers[i := c], i);
    } else {
      HeldForElsewhere(q, consumers, i, c);
    }
  }

  lemma PickKeepsOrder(q: string, n: Net, e: EngineState, closed: bool, i: nat, action: ConsumerAction)
    requires AtMostOne(q, n.consumers) && InOrder(q, n, e)
    requires ConsumerEnabled(n, closed, i, action) && (action == Pick || action == Quit)
    ensures InOrder(q, ConsumerDo(n, closed, i, action), e)
  {
    StayingHolds(q, n.consumers, i, ConsumerDo(n, closed, i, action).consumers[i]);
  }

  /** Every action of a consumer goroutine keeps the order of a queue with one consumer. */
  lemma ConsumeKeepsOrder(q: string, n: Net, e: EngineState, closed: bool, i: nat, action: ConsumerAction)
    requires Tagged(n.consumers) && AtMostOne(q, n.consumers) && InOrder(q, n, e)
    requires ConsumerEnabled(n, closed, i, action)
    ensures InOrder(q, ConsumerDo(n, closed, i, action), e)
  {
    match action
    case Deliver(k) => DeliverKeepsOrder(q, n, e, closed, i, k);
    case Pick => PickKeepsOrder(q, n, e, closed, i, action);
    case Send => SendKeepsOrder(q, n, e, closed, i);
    case Quit => PickKeepsOrder(q, n, e, closed, i, action);
  }

  lemma ConsumeKeepsTags(n: Net, closed: bool, i: nat, action: ConsumerAction)
    requires Tagged(n.consumers) && ConsumerEnabled(n, closed, i, action)
    ensures var n' := ConsumerDo(n, closed, i, action);
            && Tagged(n'.consumers)
            && Queues(n'.consumers) == Queues(n.consumers)
            && forall q :: AtMostOne(q, n'.consumers) <==> AtMostOne(q, n.consumers)
  {
    var c, c' := n.consumers[i], ConsumerDo(n, closed, i, action).consumers[i];
    assert forall p :: p in InFlight(c') ==> p in InFlight(c) || (action.Deliver? && p == n.backlog[action.k]);
    SameQueues(n.consumers, i, c');
    forall q ensures AtMostOne(q, n.consumers[i := c']) <==> AtMostOne(q, n.consumers) {
      SameQueueAt(n.consumers, i, c', q);
    }
  }

  lemma SameQueues(consumers: seq<Consumer>, i: nat, c: Consumer)
    requires i < |consumers| && consumers[i].queue == c.queue
    ensures Queues(consumers[i := c]) == Queues(consumers)
  {
    var after := consumers[i := c];
    assert forall x :: x in after ==> x in consumers || x == c;
    assert consumers[i] in consumers && after[i] in after;
    assert forall j :: 0 <= j < |after| ==> after[j] in after && after[j].queue == consumers[j].queue;
    assert forall x :: x in consumers ==> exists j :: 0 <= j < |after| && consumers[j] == x;
  }

  /** The process loop passes packets from the channel to the history one at a time. */
  lemma ProcessKeepsSequence(w: World, n: Net, e: EngineState, cancelled: bool, action: LoopAction)
    requires LoopEnabled(e, n.msgChan, cancelled, action)
    ensures var n' := if action == Receive then n.(msgChan := n.msgChan[1..]) else n;
            Sequenced(LoopDo(w, e, n.msgChan, cancelled, action), n') == Sequenced(e, n)
  {
    var e' := LoopDo(w, e, n.msgChan, cancelled, action);
    match action
    case Receive => assert n.msgChan == [n.msgChan[0]] + n.msgChan[1..];
    case LogReceived => assert e'.history[..|e.history|] == e.history;
    case _ =>
  }

  lemma WorkKeepsSequence(n: Net, e: EngineState, f: Flags, k: nat, action: WorkerAction)
    requires WorkerEnabled(e, f, k, action)
    ensures Sequenced(WorkerDo(e, f, k, action), n) == Sequenced(e, n)
  {
    var e' := WorkerDo(e, f, k, action);
    if action.LogPublished? {
      assert e'.history[..|e.history|] == e.history;
    }
    assert Received(e'.history) == Received(e.history);
  }

  lemma AddConsumerQueues(consumers: seq<Consumer>, q: string)
    ensures var after := consumers + [Consumer(q, [], None, true)];
            && Queues(after) == Queues(consumers) + {q}
            && forall r :: AtMostOne(r, after) <==> AtMostOne(r, consumers) && (r == q ==> q !in Queues(consumers))
  {
    var after := consumers + [Consumer(q, [], None, true)];
    assert forall x :: x in after <==> x in consumers || x == after[|consumers|];
    forall r ensures AtMostOne(r, after) <==> AtMostOne(r, consumers) && (r == q ==> q !in Queues(consumers)) {
      AddConsumerSingle(consumers, q, r);
    }
  }

  lemma AddConsumerSingle(consumers: seq<Consumer>, q: string, r: string)
    ensures AtMostOne(r, consumers + [Consumer(q, [], None, true)]) <==>
            AtMostOne(r, consumers) && (r == q ==> q !in Queues(consumers))
  {
    var after := consumers + [Consumer(q, [], None, true)];
    assert forall i :: 0 <= i < |consumers| ==> after[i] == consumers[i] && consumers[i] in consumers;
    if q in Queues(consumers) {
      var i :| 0 <= i < |consumers| && consumers[i].queue == q;
      assert after[i].queue == after[|consumers|].queue;
    }
  }

  /** A new consumer of a new queue holds nothing. */
  lemma NewConsumerKeepsOrder(q: string, n: Net, e: EngineState, r: string)
    requires InOrder(q, n, e) && (r == q ==> q !in Queues(n.consumers))
    ensures InOrder(q, ApplyToNet(n, AddConsumer(r)), e)
  {
    var n' := ApplyToNet(n, AddConsumer(r));
    assert forall i :: 0 <= i < |n.consumers| ==> n.consumers[i] in n.consumers;
    assert n'.consumers[..|n.consumers|] == n.consumers && InFlight(n'.consumers[|n.consumers|]) == [];
    if r == q {
      HeldForNone(q, n.consumers);
    }
  }

  lemma AddConsumerKeepsTags(n: Net, q: string)
    requires Tagged(n.consumers)
    ensures var n' := ApplyToNet(n, AddConsumer(q));
            && Tagged(n'.consumers)
            && Queues(n'.consumers) == Queues(n.consumers) + {q}
            && forall r :: AtMostOne(r, n'.consumers) <==> AtMostOne(r, n.consumers) && (r == q ==> q !in Queues(n.consumers))
  {
    AddConsumerQueues(n.consumers, q);
  }

  /** What one caller's step does to the subscriptions. */
  lemma CallSubscribes(f: Flags, t: nat, pc: Caller, action: CallerAction)
    requires CallerReady(f, pc, action) && (InsideMu(pc) ==> f.mu == Some(t))
    ensures var f', pc', effect := CallerFlags(f, t, pc, action), CallerPc(f, pc, action), CallerEffect(f, pc, action);
            && f'.subscribed == f.subscribed + (if effect.AddConsumer? then {effect.queue} else {})
            && (f'.subscribed != f.subscribed ==> f.mu == Some(t))
            && (f.retried ==> f'.retried)
            && (pc.Starting? && effect.AddConsumer? ==> effect.queue == pc.todo[0])
            && (pc'.Starting? && pc.Starting? ==> effect.AddConsumer? && pc'.todo == pc.todo[1..])
            && (pc'.Starting? && !pc.Starting? && !f'.retried ==> f.subscribed == {} && NoDuplicates(pc'.todo))
            && (pc.Reloading? && effect.AddConsumer? ==> effect.queue !in f.subscribed)
            && (effect.AddConsumer? ==> IsSubscribing(pc))
  {
    if action.Subscribe? {
      SubscribeSubscribes(f, t, pc, action.ok);
    }
  }

  lemma SubscribeSubscribes(f: Flags, t: nat, pc: Caller, ok: bool)
    requires CallerReady(f, pc, Subscribe(ok))
    ensures var f', pc', effect :=
              CallerFlags(f, t, pc, Subscribe(ok)), CallerPc(f, pc, Subscribe(ok)), CallerEffect(f, pc, Subscribe(ok));
            && f'.subscribed == f.subscribed + (if effect.AddConsumer? then {effect.queue} else {})
            && f'.retried == f.retried
            && (effect.AddConsumer? ==> effect.queue == pc.todo[0])
            && (pc'.Starting? ==> pc.Starting? && effect.AddConsumer? && pc'.todo == pc.todo[1..])
            && (pc.Reloading? && effect.AddConsumer? ==> effect.queue !in f.subscribed)
  {
  }

  lemma CallKeepsFreshTodo(s: State, t: nat, action: CallerAction)
    requires Shutdown.Inv(s) && FreshTodo(s.flags, s.callers) && t < |s.callers|
    requires CallerReady(s.flags, s.callers[t], action)
    ensures FreshTodo(CallerFlags(s.flags, t, s.callers[t], action),
                      s.callers[t := CallerPc(s.flags, s.callers[t], action)])
  {
    CallSubscribes(s.flags, t, s.callers[t], action);
  }

  lemma CallKeepsInv(w: World, s: State, t: nat, action: CallerAction)
    requires Shutdown.Inv(s) && Inv(s) && Enabled(s, Call(t, action))
    ensures Inv(Do(w, s, Call(t, action)))
  {
    var effect := CallerEffect(s.flags, s.callers[t], action);
    CallSubscribes(s.flags, t, s.callers[t], action);
    CallKeepsFreshTodo(s, t, action);
    if effect.AddConsumer? {
      AddConsumerKeepsTags(s.net, effect.queue);
    }
  }

  lemma CallKeepsSequence(s: State, t: nat, action: CallerAction, n: Net)
    requires Shutdown.Inv(s) && Enabled(s, Call(t, action))
    ensures Sequenced(ApplyToEngine(s.eng, CallerEffect(s.flags, s.callers[t], action)), n) == Sequenced(s.eng, n)
  {
    Shutdown.CallKeepsInv(s, t, action);
  }

  lemma InvReachable(w: World, s: State)
    requires Reachable(w, s)
    ensures Inv(s)
  {
    forall u, step | Reachable(w, u) && Inv(u) && Enabled(u, step) ensures Inv(Do(w, u, step)) {
      Shutdown.InvReachable(w, u);
      match step
      case Consume(i, action) => ConsumeKeepsTags(u.net, u.flags.closed, i, action);
      case Call(t, action) => CallKeepsInv(w, u, t, action);
      case _ =>
    }
    KeptFromStart(w, Inv, s);
  }

  lemma CallKeepsOrder(q: string, w: World, s: State, t: nat, action: CallerAction)
    requires Shutdown.Inv(s) && Inv(s) && Ordered(q, s) && Enabled(s, Call(t, action))
    ensures Ordered(q, Do(w, s, Call(t, action)))
  {
    var effect, s' := CallerEffect(s.flags, s.callers[t], action), Do(w, s, Call(t, action));
    CallKeepsSequence(s, t, action, s'.net);
    if effect.AddConsumer? {
      AddConsumerKeepsTags(s.net, effect.queue);
      if AtMostOne(q, s'.net.consumers) {
        NewConsumerKeepsOrder(q, s.net, s.eng, effect.queue);
      }
    }
  }

  lemma StepKeepsOrder(q: string, w: World, s: State, step: Step)
    requires Shutdown.Inv(s) && Inv(s) && Ordered(q, s) && Enabled(s, step)
    requires AtMostOne(q, s.net.consumers) && !step.Call?
    ensures Ordered(q, Do(w, s, step))
  {
    match step
    case Arrive(msg) => EnqueueKeepsOrder(q, s.net, s.eng, [Packet(msg.(direction := Direction.Received), External)]);
    case LinkLost =>
    case Invoke(_) =>
    case Consume(i, action) => ConsumeKeepsOrder(q, s.net, s.eng, s.flags.closed, i, action);
    case Process(action) => ProcessKeepsSequence(w, s.net, s.eng, s.flags.cancelled, action);
    case Work(k, action) =>
      WorkKeepsSequence(s.net, s.eng, s.flags, k, action);
      EnqueueKeepsOrder(q, s.net, WorkerDo(s.eng, s.flags, k, action), Enqueued(w, s.eng, s.flags, k, action));
  }

  lemma OrderReachable(q: string, w: World, s: State)
    requires Reachable(w, s)
    ensures Ordered(q, s)
  {
    var inv := (u: State) => Ordered(q, u);
    forall u, step | Reachable(w, u) && inv(u) && Enabled(u, step) ensures inv(Do(w, u, step)) {
      Shutdown.InvReachable(w, u);
      InvReachable(w, u);
      if step.Call? {
        CallKeepsOrder(q, w, u, step.t, step.call);
      } else if AtMostOne(q, u.net.consumers) {
        StepKeepsOrder(q, w, u, step);
      } else if step.Consume? {
        ConsumeKeepsTags(u.net, u.flags.closed, step.c, step.consumer);
      }
    }
    KeptFromStart(w, inv, s);
  }

  /** The recorded packets of q are the first ones that arrived on it, in order. */
  ghost predicate RecordedInOrder(q: string, s: State) {
    Of(q, Received(s.eng.history)) <= Of(q, s.net.arrived)
  }

  /** In every reachable state, for each queue with at most one consumer, whatever other queues
      have: the arrivals are the recorded messages, then what the loop and the channel hold for the
      queue, then what its consumer holds, then the undelivered rest. */
  lemma EndToEndOrder(w: World, s: State, q: string)
    requires Reachable(w, s) && AtMostOne(q, s.net.consumers)
    ensures Of(q, s.net.arrived) ==
            Of(q, Received(s.eng.history)) + Of(q, LoopHeld(s.eng.loop)) + Of(q, s.net.msgChan)
            + HeldFor(q, s.net.consumers) + Of(q, s.net.backlog)
    ensures RecordedInOrder(q, s)
  {
    OrderReachable(q, w, s);
    var recorded, loop, channel := Received(s.eng.history), LoopHeld(s.eng.loop), s.net.msgChan;
    SelectConcat(OnQueue(q), recorded + loop, channel);
    SelectConcat(OnQueue(q), recorded, loop);
  }

  /** No queue ever has two consumers unless some Start was retried after subscribing queues. */
  lemma OneConsumerWithoutRetry(w: World, s: State)
    requires Reachable(w, s) && !s.flags.retried
    ensures OneConsumerPerQueue(s.net.consumers)
  {
    InvReachable(w, s);
  }

  /** A step gives queue q a second consumer exactly if Start subscribes to q, which is subscribed
      already; no other step does. */
  lemma SecondConsumerExactlyOnResubscription(w: World, s: State, step: Step, q: string)
    requires Reachable(w, s) && AtMostOne(q, s.net.consumers) && Enabled(s, step)
    ensures !AtMostOne(q, Do(w, s, step).net.consumers) <==>
              && step.Call? && step.call == Subscribe(true) && s.callers[step.t].Starting? && !s.flags.closed
              && s.callers[step.t].todo[0] == q && q in s.flags.subscribed
  {
    InvReachable(w, s);
    Shutdown.InvReachable(w, s);
    if step.Consume? {
      ConsumeKeepsTags(s.net, s.flags.closed, step.c, step.consumer);
    } else if step.Call? {
      var effect := CallerEffect(s.flags, s.callers[step.t], step.call);
      CallSubscribes(s.flags, step.t, s.callers[step.t], step.call);
      if effect.AddConsumer? {
        AddConsumerKeepsTags(s.net, effect.queue);
      }
    }
  }
}
