/** The running system as a transition system: the broker and the RabbitMQ driver's consumer
    goroutines (pkg/broker/rabbitmq.go), the engine's message channel, process loop and dispatch
    workers, and any number of concurrent callers of Start, Reload, Stop and Close
    (pkg/engine/engine.go). One step is one action of one goroutine between two points at which
    another goroutine may run; a critical section under a lock is one step unless it calls out. */
module Pipeline {
  import opened Basics
  import opened Config

  const CHANNEL_CAPACITY := 100

  /** What is foreign to the system: JSONPath evaluation, and the broker's routing of a
      publication (exchange, routing key) to the queues that get a copy. */
  datatype World = World(eval: (string, JSONPathRule) -> bool, route: (string, string) -> seq<string>)

  /** Where a message in the broker came from. The engine never looks at this. */
  datatype Source = External | Own(attempt: nat)

  datatype Packet = Packet(msg: Message, source: Source)

  /** An entry of the spy's history; entry i has sequence number i + 1. */
  datatype Entry = ReceivedEntry(packet: Packet) | PublishedEntry(attempt: nat, msg: Message)

  /** A consumer goroutine with its delivery channel and the message it is sending. */
  datatype Consumer = Consumer(queue: string, buffer: seq<Packet>, held: Option<Packet>, alive: bool)

  /** The program counter of the process loop, with the locals of handleMessage. */
  datatype Loop =
    | NotStarted
    | Idle
    | Taken(packet: Packet)
    | Logged(packet: Packet, entry: nat)
    | Testing(packet: Packet, entry: nat, generation: nat, rule: nat)
    | Matched(packet: Packet, entry: nat, generation: nat, rule: nat)
    | Ended

  datatype Phase = RenderFailed | Delaying | Ready | Sent | Cancelled | PublishFailed | Recorded

  /** One match of a rule and what became of it; `live` until the worker calls wg.Done. */
  datatype Attempt = Attempt(
    packet: Packet, entry: nat, generation: nat, rule: nat, body: string, phase: Phase, live: bool)

  /** Why a goroutine calls the driver's Close. */
  datatype Reason = Drained | TimedOut | Direct

  datatype Outcome =
    | Started | AlreadyRunning | StartRefused | StartFailed
    | Reloaded | ReloadRefused | ReloadFailed
    | AlreadyStopped | ClosedBy(reason: Reason)

  /** The program counter of a goroutine inside Start, Reload, Stop or Close. */
  datatype Caller =
    | StartCalled
    | StartLocked
    | Starting(todo: seq<string>)
    | ReloadCalled(cfg: Config)
    | ReloadLocked(cfg: Config)
    | Reloading(cfg: Config, todo: seq<string>)
    | StopCalled
    | Flagged
    | Draining
    | Closing(reason: Reason)
    | Disconnecting(reason: Reason)
    | AwaitingConsumers(reason: Reason)
    | Returned(outcome: Outcome)

  /** The broker's queues, the driver's consumers and the channel they write to. */
  datatype Net = Net(
    arrived: seq<Packet>,           // everything enqueued so far, over all queues
    backlog: seq<Packet>,           // enqueued and not yet delivered to a consumer
    consumers: seq<Consumer>,
    consumerCount: int,             // the driver's WaitGroup
    link: bool,                     // the connection is up
    msgChan: seq<Packet>)

  /** The process loop, the dispatch workers, the loaded rules and the spy's history. */
  datatype EngineState = EngineState(
    loop: Loop,
    attempts: seq<Attempt>,
    wg: int,                        // the engine's WaitGroup
    generations: seq<seq<Rule>>,    // every rule set loaded so far; the last one is active
    counters: seq<seq<nat>>,        // the match counters of each generation
    history: seq<Entry>)

  /** Flags and locks of the engine and the driver. */
  datatype Flags = Flags(
    mu: Option<nat>,                // caller holding the engine's mutex across steps
    running: bool,
    stopped: bool,
    cancelled: bool,                // the engine's context
    subscribed: set<string>,
    cfg: Config,
    retried: bool,                  // some Start began with queues already subscribed
    writer: Option<nat>,            // caller holding the driver's write lock across steps
    closed: bool)                   // the driver's closed flag; its context is cancelled with it

  datatype State = State(net: Net, eng: EngineState, flags: Flags, callers: seq<Caller>)

  /** What a caller's step does outside the control state. */
  datatype Effect = Nothing | AddConsumer(queue: string) | StartLoop | LoadRules(rules: seq<Rule>) | CutLink

  datatype ConsumerAction = Deliver(k: nat) | Pick | Send | Quit

  datatype LoopAction = Receive | LogReceived | Snapshot | TestRule | RenderFails | Spawn(body: string) | EndLoop

  datatype WorkerAction = Elapse | CancelDelay | Publish(accepted: bool) | LogPublished | Finish

  datatype CallerAction =
    | Begin | Declare(ok: bool, order: seq<string>) | Subscribe(ok: bool) | Commit
    | FlagStop | CancelContext | SeeDrained | SeeTimeout
    | EnterClose | Disconnect | LeaveClose

  datatype Step =
    | Arrive(msg: Message) | LinkLost | Invoke(caller: Caller)
    | Consume(c: nat, consumer: ConsumerAction)
    | Process(loop: LoopAction)
    | Work(k: nat, worker: WorkerAction)
    | Call(t: nat, call: CallerAction)

  function ZeroCounters(rules: seq<Rule>): seq<nat> {
    seq(|rules|, i => 0)
  }

  /** A new engine on a connected driver. */
  function Init(cfg: Config): State {
    State(
      Net([], [], [], 0, true, []),
      EngineState(NotStarted, [], 0, [cfg.rules], [ZeroCounters(cfg.rules)], []),
      Flags(None, false, false, false, {}, cfg, false, None, false),
      [])
  }

  function OnQueue(q: string): Packet -> bool {
    (p: Packet) => p.msg.queue == q
  }

  /** The packets of queue q, in order. */
  function Of(q: string, ps: seq<Packet>): seq<Packet> {
    Select(OnQueue(q), ps)
  }

  /** Rule `rule` of generation `generation` and its counter exist. */
  predicate InRange(e: EngineState, generation: nat, rule: nat) {
    generation < |e.generations| && generation < |e.counters| && rule < |e.generations[generation]|
    && |e.generations[generation]| == |e.counters[generation]|
  }

  function RuleOf(e: EngineState, a: Attempt): Rule
    requires InRange(e, a.generation, a.rule)
  {
    e.generations[a.generation][a.rule]
  }

  /** The copies of attempt k's mock response that the broker enqueues, headers preserved. */
  function Copies(queues: seq<string>, rule: Rule, body: string, k: nat): seq<Packet> {
    seq(|queues|, i requires 0 <= i < |queues| =>
      Packet(Message(queues[i], rule.response.routingKey, StampedHeaders(rule), body, Received, "", "", ""), Own(k)))
  }

  function PublishedMessage(rule: Rule, body: string): Message {
    Message("", rule.response.routingKey, StampedHeaders(rule), body, Published, rule.response.exchange, rule.name, "")
  }

  // Steps of the broker and of consumer goroutine i

  predicate ConsumerEnabled(n: Net, closed: bool, i: nat, action: ConsumerAction) {
    i < |n.consumers| && n.consumers[i].alive &&
    var c := n.consumers[i];
    match action
    case Deliver(k) =>
      // the broker pushes the oldest message of the queue while the channel is open
      n.link && k < |n.backlog| && n.backlog[k].msg.queue == c.queue
      && forall j :: 0 <= j < k ==> n.backlog[j].msg.queue != c.queue
    case Pick => c.held == None && c.buffer != []
    case Send => c.held.Some? && |n.msgChan| < CHANNEL_CAPACITY
    case Quit =>
      // the driver's context is cancelled, or the connection is gone and the delivery channel closed;
      // the library may then drop what it has not passed on
      closed || (!n.link && c.held == None)
  }

  function ConsumerDo(n: Net, closed: bool, i: nat, action: ConsumerAction): Net
    requires ConsumerEnabled(n, closed, i, action)
  {
    var c := n.consumers[i];
    match action
    case Deliver(k) =>
      n.(backlog := n.backlog[..k] + n.backlog[k + 1..],
         consumers := n.consumers[i := c.(buffer := c.buffer + [n.backlog[k]])])
    case Pick => n.(consumers := n.consumers[i := c.(buffer := c.buffer[1..], held := Some(c.buffer[0]))])
    case Send =>
      n.(consumers := n.consumers[i := c.(held := None)], msgChan := n.msgChan + [c.held.value])
    case Quit =>
      n.(consumers := n.consumers[i := c.(alive := false)], consumerCount := n.consumerCount - 1)
  }

  // Steps of the process loop; Receive also takes the head of the message channel

  predicate LoopEnabled(e: EngineState, msgChan: seq<Packet>, cancelled: bool, action: LoopAction) {
    match action
    case Receive => e.loop.Idle? && msgChan != []
    case LogReceived => e.loop.Taken?
    case Snapshot => e.loop.Logged? && e.generations != []
    case TestRule =>
      e.loop.Testing? && e.loop.generation < |e.generations|
      && (e.loop.rule < |e.generations[e.loop.generation]| ==> InRange(e, e.loop.generation, e.loop.rule))
    case RenderFails => e.loop.Matched? && InRange(e, e.loop.generation, e.loop.rule)
    case Spawn(_) => e.loop.Matched? && InRange(e, e.loop.generation, e.loop.rule)
    case EndLoop => e.loop.Idle? && cancelled
  }

  function LoopDo(w: World, e: EngineState, msgChan: seq<Packet>, cancelled: bool, action: LoopAction): EngineState
    requires LoopEnabled(e, msgChan, cancelled, action)
  {
    match action
    case Receive => e.(loop := Taken(msgChan[0]))
    case LogReceived =>
      // record first, then the loop guard
      var p := e.loop.packet;
      e.(history := e.history + [ReceivedEntry(p)],
         loop := if HasOrigin(p.msg) then Idle else Logged(p, |e.history|))
    case Snapshot => e.(loop := Testing(e.loop.packet, e.loop.entry, |e.generations| - 1, 0))
    case TestRule =>
      var Testing(p, entry, g, i) := e.loop;
      if i >= |e.generations[g]| then e.(loop := Idle)
      else if !MatchesRule(w.eval, e.generations[g][i], p.msg) then e.(loop := Testing(p, entry, g, i + 1))
      else e.(loop := Matched(p, entry, g, i), counters := e.counters[g := e.counters[g][i := e.counters[g][i] + 1]])
    case RenderFails =>
      var Matched(p, entry, g, i) := e.loop;
      e.(loop := Testing(p, entry, g, i + 1),
         attempts := e.attempts + [Attempt(p, entry, g, i, "", RenderFailed, false)])
    case Spawn(body) =>
      var Matched(p, entry, g, i) := e.loop;
      var phase := if e.generations[g][i].response.delayMS > 0 then Delaying else Ready;
      e.(loop := Testing(p, entry, g, i + 1), wg := e.wg + 1,
         attempts := e.attempts + [Attempt(p, entry, g, i, body, phase, true)])
    case EndLoop => e.(loop := Ended, wg := e.wg - 1)
  }

  // Steps of dispatch worker k; a successful Publish also enqueues the routed copies

  predicate WorkerEnabled(e: EngineState, f: Flags, k: nat, action: WorkerAction) {
    k < |e.attempts| &&
    var a := e.attempts[k];
    a.live && InRange(e, a.generation, a.rule) &&
    match action
    case Elapse => a.phase == Delaying
    case CancelDelay => a.phase == Delaying && f.cancelled
    case Publish(_) => a.phase == Ready && f.writer == None   // takes the driver's read lock
    case LogPublished => a.phase == Sent
    case Finish => a.phase == Cancelled || a.phase == PublishFailed || a.phase == Recorded
  }

  function WorkerDo(e: EngineState, f: Flags, k: nat, action: WorkerAction): EngineState
    requires WorkerEnabled(e, f, k, action)
  {
    var a := e.attempts[k];
    match action
    case Elapse => e.(attempts := e.attempts[k := a.(phase := Ready)])
    case CancelDelay => e.(attempts := e.attempts[k := a.(phase := Cancelled)])
    case Publish(accepted) =>
      e.(attempts := e.attempts[k := a.(phase := if f.closed || !accepted then PublishFailed else Sent)])
    case LogPublished =>
      e.(attempts := e.attempts[k := a.(phase := Recorded)],
         history := e.history + [PublishedEntry(k, PublishedMessage(RuleOf(e, a), a.body))])
    case Finish => e.(attempts := e.attempts[k := a.(live := false)], wg := e.wg - 1)
  }

  /** What the broker enqueues in a worker's step. */
  function Enqueued(w: World, e: EngineState, f: Flags, k: nat, action: WorkerAction): seq<Packet>
    requires WorkerEnabled(e, f, k, action)
  {
    if action.Publish? && action.accepted && !f.closed then
      var rule := RuleOf(e, e.attempts[k]);
      Copies(w.route(rule.response.exchange, rule.response.routingKey), rule, e.attempts[k].body, k)
    else []
  }

  // Steps of caller t, which read and write its program counter and the flags

  /** In the subscription loop of Start or Reload. */
  predicate IsSubscribing(pc: Caller) {
    pc.Starting? || pc.Reloading?
  }

  predicate InsideMu(pc: Caller) {
    pc.StartLocked? || pc.ReloadLocked? || IsSubscribing(pc)
  }

  predicate HoldsWriter(pc: Caller) {
    pc.Disconnecting? || pc.AwaitingConsumers?
  }

  /** The action is the caller's next one and the lock it needs is free. */
  ghost predicate CallerReady(f: Flags, pc: Caller, action: CallerAction) {
    match action
    case Begin => f.mu == None && (pc.StartCalled? || pc.ReloadCalled?)
    case Declare(_, order) =>
      f.writer == None && (pc.StartLocked? || pc.ReloadLocked?)
      && IsDesiredOrder(if pc.StartLocked? then f.cfg else pc.cfg, order)
    case Subscribe(_) => IsSubscribing(pc) && pc.todo != [] && (Skips(f, pc) || f.writer == None)
    case Commit => IsSubscribing(pc) && pc.todo == []
    case FlagStop => f.mu == None && pc.StopCalled?
    case CancelContext => pc.Flagged?
    case SeeDrained => pc.Draining?
    case SeeTimeout => pc.Draining?
    case EnterClose => f.writer == None && pc.Closing?
    case Disconnect => pc.Disconnecting?
    case LeaveClose => pc.AwaitingConsumers?
  }

  /** Stop and Close also wait for a WaitGroup to reach zero. */
  ghost predicate CallerEnabled(f: Flags, wg: int, consumerCount: int, pc: Caller, action: CallerAction) {
    && CallerReady(f, pc, action)
    && (action.SeeDrained? ==> wg == 0)
    && (action.LeaveClose? ==> consumerCount == 0)
  }

  /** Entering Start or Reload: the state checks under the mutex. */
  function BeginPc(f: Flags, pc: Caller): Caller
    requires pc.StartCalled? || pc.ReloadCalled?
  {
    match pc
    case StartCalled =>
      if f.stopped then Returned(StartRefused)
      else if f.running then Returned(AlreadyRunning)
      else StartLocked
    case ReloadCalled(cfg) =>
      if f.stopped || !f.running then Returned(ReloadRefused) else ReloadLocked(cfg)
  }

  /** The topology declaration, which takes the driver's lock, with result ok. */
  function DeclarePc(f: Flags, pc: Caller, ok: bool, order: seq<string>): Caller
    requires pc.StartLocked? || pc.ReloadLocked?
  {
    match pc
    case StartLocked => if f.closed || !ok then Returned(StartFailed) else Starting(order)
    case ReloadLocked(cfg) => if f.closed || !ok then Returned(ReloadFailed) else Reloading(cfg, order)
  }

  /** Reload skips queues that are already subscribed; Start does not look. */
  predicate Skips(f: Flags, pc: Caller)
    requires IsSubscribing(pc) && pc.todo != []
  {
    pc.Reloading? && pc.todo[0] in f.subscribed
  }

  /** One round of the subscription loop. */
  function SubscribePc(f: Flags, pc: Caller, ok: bool): Caller
    requires IsSubscribing(pc) && pc.todo != []
  {
    if !Skips(f, pc) && (f.closed || !ok) then Returned(if pc.Starting? then StartFailed else ReloadFailed)
    else if pc.Starting? then Starting(pc.todo[1..])
    else Reloading(pc.cfg, pc.todo[1..])
  }

  function CallerPc(f: Flags, pc: Caller, action: CallerAction): Caller
    requires CallerReady(f, pc, action)
  {
    match action
    case Begin => BeginPc(f, pc)
    case Declare(ok, order) => DeclarePc(f, pc, ok, order)
    case Subscribe(ok) => SubscribePc(f, pc, ok)
    case Commit => Returned(if pc.Starting? then Started else Reloaded)
    case FlagStop => if f.stopped then Returned(AlreadyStopped) else Flagged
    case CancelContext => Draining
    case SeeDrained => Closing(Drained)
    case SeeTimeout => Closing(TimedOut)
    case EnterClose => if f.closed then Returned(ClosedBy(pc.reason)) else Disconnecting(pc.reason)
    case Disconnect => AwaitingConsumers(pc.reason)
    case LeaveClose => Returned(ClosedBy(pc.reason))
  }

  function CallerFlags(f: Flags, t: nat, pc: Caller, action: CallerAction): Flags
    requires CallerReady(f, pc, action)
  {
    match action
    case Begin => if InsideMu(BeginPc(f, pc)) then f.(mu := Some(t)) else f
    case Declare(ok, order) =>
      var next := DeclarePc(f, pc, ok, order);
      if next.Starting? then f.(retried := f.retried || f.subscribed != {})
      else if next.Reloading? then f
      else f.(mu := None)
    case Subscribe(ok) =>
      if !InsideMu(SubscribePc(f, pc, ok)) then f.(mu := None)
      else f.(subscribed := f.subscribed + {pc.todo[0]})
    case Commit => if pc.Starting? then f.(mu := None, running := true) else f.(mu := None, cfg := pc.cfg)
    case FlagStop => if f.stopped then f else f.(stopped := true, running := false)
    case CancelContext => f.(cancelled := true)
    case EnterClose => if f.closed then f else f.(closed := true, writer := Some(t))
    case LeaveClose => f.(writer := None)
    case _ => f
  }

  function CallerEffect(f: Flags, pc: Caller, action: CallerAction): Effect
    requires CallerReady(f, pc, action)
  {
    match action
    case Subscribe(ok) =>
      if Skips(f, pc) || !InsideMu(SubscribePc(f, pc, ok)) then Nothing else AddConsumer(pc.todo[0])
    case Commit => if pc.Starting? then StartLoop else LoadRules(pc.cfg.rules)
    case Disconnect => CutLink
    case _ => Nothing
  }

  function ApplyToNet(n: Net, effect: Effect): Net {
    match effect
    case AddConsumer(q) =>
      n.(consumers := n.consumers + [Consumer(q, [], None, true)], consumerCount := n.consumerCount + 1)
    case CutLink => n.(link := false)
    case _ => n
  }

  function ApplyToEngine(e: EngineState, effect: Effect): EngineState {
    match effect
    case StartLoop => e.(loop := Idle, wg := e.wg + 1)
    case LoadRules(rules) =>
      e.(generations := e.generations + [rules], counters := e.counters + [ZeroCounters(rules)])
    case _ => e
  }

  // The whole system

  predicate IsEnvironmentStep(step: Step) {
    step.Arrive? || step.LinkLost? || step.Invoke?
  }

  predicate IsEntryPoint(pc: Caller) {
    pc == StartCalled || pc.ReloadCalled? || pc == StopCalled || pc == Closing(Direct)
  }

  ghost predicate Enabled(s: State, step: Step) {
    match step
    case Arrive(_) => true
    case LinkLost => true
    case Invoke(pc) => IsEntryPoint(pc)
    case Consume(i, action) => ConsumerEnabled(s.net, s.flags.closed, i, action)
    case Process(action) => LoopEnabled(s.eng, s.net.msgChan, s.flags.cancelled, action)
    case Work(k, action) => WorkerEnabled(s.eng, s.flags, k, action)
    case Call(t, action) =>
      t < |s.callers| && CallerEnabled(s.flags, s.eng.wg, s.net.consumerCount, s.callers[t], action)
  }

  function Enqueue(n: Net, ps: seq<Packet>): Net {
    n.(arrived := n.arrived + ps, backlog := n.backlog + ps)
  }

  function Do(w: World, s: State, step: Step): State
    requires Enabled(s, step)
  {
    match step
    case Arrive(msg) => s.(net := Enqueue(s.net, [Packet(msg.(direction := Received), External)]))
    case LinkLost => s.(net := s.net.(link := false))
    case Invoke(pc) => s.(callers := s.callers + [pc])
    case Consume(i, action) => s.(net := ConsumerDo(s.net, s.flags.closed, i, action))
    case Process(action) =>
      s.(eng := LoopDo(w, s.eng, s.net.msgChan, s.flags.cancelled, action),
         net := if action == Receive then s.net.(msgChan := s.net.msgChan[1..]) else s.net)
    case Work(k, action) =>
      s.(eng := WorkerDo(s.eng, s.flags, k, action), net := Enqueue(s.net, Enqueued(w, s.eng, s.flags, k, action)))
    case Call(t, action) =>
      var pc := s.callers[t];
      var effect := CallerEffect(s.flags, pc, action);
      State(ApplyToNet(s.net, effect), ApplyToEngine(s.eng, effect),
            CallerFlags(s.flags, t, pc, action), s.callers[t := CallerPc(s.flags, pc, action)])
  }

  /** `steps` can be taken one after the other from s and lead to t. */
  ghost predicate Run(w: World, s: State, steps: seq<Step>, t: State)
    decreases steps
  {
    if steps == [] then s == t
    else Enabled(s, steps[0]) && Run(w, Do(w, s, steps[0]), steps[1..], t)
  }

  ghost predicate LeadsTo(w: World, s: State, t: State) {
    exists steps :: Run(w, s, steps, t)
  }

  ghost predicate Reachable(w: World, s: State) {
    exists cfg, steps :: Run(w, Init(cfg), steps, s)
  }

  lemma {:induction false} RunConcat(w: World, s: State, steps: seq<Step>, t: State, more: seq<Step>, u: State)
    requires Run(w, s, steps, t) && Run(w, t, more, u)
    ensures Run(w, s, steps + more, u)
    decreases steps
  {
    if steps == [] {
      assert steps + more == more;
    } else {
      assert (steps + more)[1..] == steps[1..] + more;
      RunConcat(w, Do(w, s, steps[0]), steps[1..], t, more, u);
    }
  }

  lemma ReachableStep(w: World, s: State, step: Step)
    requires Reachable(w, s) && Enabled(s, step)
    ensures Reachable(w, Do(w, s, step))
  {
    var cfg, steps :| Run(w, Init(cfg), steps, s);
    RunConcat(w, Init(cfg), steps, s, [step], Do(w, s, step));
  }

  lemma LeadsOn(w: World, s: State, t: State, u: State)
    requires LeadsTo(w, s, t) && LeadsTo(w, t, u)
    ensures LeadsTo(w, s, u)
  {
    var steps :| Run(w, s, steps, t);
    var more :| Run(w, t, more, u);
    RunConcat(w, s, steps, t, more, u);
  }

  lemma StepLeads(w: World, s: State, step: Step)
    requires Enabled(s, step)
    ensures LeadsTo(w, s, Do(w, s, step))
  {
    assert [step][1..] == [];
    assert Run(w, s, [step], Do(w, s, step));
  }

  /** Every step from a reachable state keeps inv. */
  ghost predicate Keeps(w: World, inv: State -> bool) {
    forall s, step :: Reachable(w, s) && inv(s) && Enabled(s, step) ==> inv(Do(w, s, step))
  }

  /** What every step keeps holds at the end of every run. */
  lemma {:induction false} KeptOnRun(w: World, inv: State -> bool, s: State, steps: seq<Step>, t: State)
    requires Keeps(w, inv) && Reachable(w, s) && inv(s) && Run(w, s, steps, t)
    ensures Reachable(w, t) && inv(t)
    decreases steps
  {
    if steps != [] {
      ReachableStep(w, s, steps[0]);
      KeptOnRun(w, inv, Do(w, s, steps[0]), steps[1..], t);
    }
  }

  /** What also holds initially holds in every reachable state. */
  lemma KeptFromStart(w: World, inv: State -> bool, s: State)
    requires Keeps(w, inv) && (forall cfg :: inv(Init(cfg))) && Reachable(w, s)
    ensures inv(s)
  {
    var cfg, steps :| Run(w, Init(cfg), steps, s);
    assert Run(w, Init(cfg), [], Init(cfg));
    KeptOnRun(w, inv, Init(cfg), steps, s);
  }
}
