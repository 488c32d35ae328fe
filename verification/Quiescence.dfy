/** Termination of the closed system. A ranking measure decreases with every step that is not an
    input from outside, so activity dies out after every input, and in the quiescent states that
    are reached nobody is blocked and nothing is left unhandled. */
module Quiescence {
  import opened Basics
  import opened Config
  import opened Pipeline
  import LoopGuard
  import Order
  import Provenance
  import Shutdown

  /** Bounds on a run: rules per rule set, copies per publication, queues per configuration. */
  datatype Bounds = Bounds(rules: nat, copies: nat, queues: nat)

  function QueueCount(cfg: Config): nat {
    |cfg.rules| + |cfg.spyQueues|
  }

  predicate Fits(cfg: Config, b: Bounds) {
    |cfg.rules| <= b.rules && QueueCount(cfg) <= b.queues
  }

  /** How many copies the broker makes of each response of the rules. */
  function RouteCount(w: World): Rule -> nat {
    (r: Rule) => |w.route(r.response.exchange, r.response.routingKey)|
  }

  predicate RoutesFit(w: World, rules: seq<Rule>, copies: nat) {
    forall i :: 0 <= i < |rules| ==> RouteCount(w)(rules[i]) <= copies
  }

  /** The caller is inside Reload, with a configuration to load. */
  predicate IsReload(pc: Caller) {
    pc.ReloadCalled? || pc.ReloadLocked? || pc.Reloading?
  }

  /** The bounds cover everything loaded and everything a pending reload may load. */
  ghost predicate Bounded(w: World, s: State, b: Bounds) {
    && LoopGuard.RulesBounded(s.eng, b.rules)
    && (forall g :: 0 <= g < |s.eng.generations| ==> RoutesFit(w, s.eng.generations[g], b.copies))
    && Fits(s.flags.cfg, b)
    && (forall t :: 0 <= t < |s.callers| && IsReload(s.callers[t]) ==>
          Fits(s.callers[t].cfg, b) && RoutesFit(w, s.callers[t].cfg.rules, b.copies))
  }

  // Every state has bounds

  function CopiesIn(w: World, rules: seq<Rule>): nat {
    Sum(RouteCount(w), rules)
  }

  function CopiesOf(w: World): seq<Rule> -> nat {
    (rules: seq<Rule>) => CopiesIn(w, rules)
  }

  function LengthOf(): seq<Rule> -> nat {
    (rules: seq<Rule>) => |rules|
  }

  function PendingSize(): Caller -> nat {
    (pc: Caller) => if IsReload(pc) then QueueCount(pc.cfg) else 0
  }

  function PendingCopies(w: World): Caller -> nat {
    (pc: Caller) => if IsReload(pc) then CopiesIn(w, pc.cfg.rules) else 0
  }

  lemma CopiesFit(w: World, rules: seq<Rule>, copies: nat)
    requires CopiesIn(w, rules) <= copies
    ensures RoutesFit(w, rules, copies)
  {
    forall i | 0 <= i < |rules| ensures RouteCount(w)(rules[i]) <= copies {
      SumSplit(RouteCount(w), rules, i);
    }
  }

  lemma BoundsExist(w: World, s: State) returns (b: Bounds)
    ensures Bounded(w, s, b)
  {
    var size := QueueCount(s.flags.cfg) + Sum(PendingSize(), s.callers);
    b := Bounds(Sum(LengthOf(), s.eng.generations) + size,
                Sum(CopiesOf(w), s.eng.generations) + Sum(PendingCopies(w), s.callers), size);
    forall g | 0 <= g < |s.eng.generations|
      ensures |s.eng.generations[g]| <= b.rules && RoutesFit(w, s.eng.generations[g], b.copies)
    {
      SumSplit(LengthOf(), s.eng.generations, g);
      SumSplit(CopiesOf(w), s.eng.generations, g);
      CopiesFit(w, s.eng.generations[g], b.copies);
    }
    forall t | 0 <= t < |s.callers| && IsReload(s.callers[t])
      ensures Fits(s.callers[t].cfg, b) && RoutesFit(w, s.callers[t].cfg.rules, b.copies)
    {
      SumSplit(PendingSize(), s.callers, t);
      SumSplit(PendingCopies(w), s.callers, t);
      CopiesFit(w, s.callers[t].cfg.rules, b.copies);
    }
  }

  // Weights: an upper bound on the steps each part of the state can still cause

  function WorkerWeight(b: Bounds): nat {
    4 + 5 * b.copies
  }

  /** Handling a message once `left` rules remain to be tried on it. */
  function TestingWeight(b: Bounds, left: nat): nat {
    if left == 0 then 1 else TestingWeight(b, left - 1) + 2 + WorkerWeight(b)
  }

  function ReactionWeight(b: Bounds, p: Packet): nat {
    if HasOrigin(p.msg) then 0 else 1 + TestingWeight(b, b.rules)
  }

  /** `stage` steps bring packet p to the guard. */
  function PacketWeight(b: Bounds, stage: nat): Packet -> nat {
    (p: Packet) => stage + ReactionWeight(b, p)
  }

  function HeldWeight(b: Bounds, held: Option<Packet>): nat {
    match held
    case None => 0
    case Some(p) => 3 + ReactionWeight(b, p)
  }

  function ConsumerWeight(b: Bounds): Consumer -> nat {
    (c: Consumer) => (if c.alive then 1 else 0) + HeldWeight(b, c.held) + Sum(PacketWeight(b, 4), c.buffer)
  }

  function LoopWeight(b: Bounds, loop: Loop): nat {
    match loop
    case NotStarted => 0
    case Idle => 1
    case Taken(p) => 2 + ReactionWeight(b, p)
    case Logged(_, _) => 2 + TestingWeight(b, b.rules)
    case Testing(_, _, _, i) => if i <= b.rules then 1 + TestingWeight(b, b.rules - i) else 2
    case Matched(_, _, _, i) => if i <= b.rules then TestingWeight(b, b.rules - i) else 1
    case Ended => 0
  }

  function AttemptWeight(b: Bounds): Attempt -> nat {
    (a: Attempt) =>
      if !a.live then 0
      else if a.phase == Delaying then WorkerWeight(b)
      else if a.phase == Ready then 3 + 5 * b.copies
      else if a.phase == Sent then 2
      else 1
  }

  function CallerWeight(b: Bounds): Caller -> nat {
    (pc: Caller) => match pc
      case StartCalled => 4 + 2 * b.queues
      case ReloadCalled(_) => 4 + 2 * b.queues
      case StartLocked => 3 + 2 * b.queues
      case ReloadLocked(_) => 3 + 2 * b.queues
      case Starting(todo) => 2 + 2 * |todo|
      case Reloading(_, todo) => 2 + 2 * |todo|
      case StopCalled => 7
      case Flagged => 6
      case Draining => 5
      case Closing(_) => 4
      case Disconnecting(_) => 3
      case AwaitingConsumers(_) => 2
      case Returned(_) => 0
  }

  function NetRank(b: Bounds, n: Net): nat {
    Sum(PacketWeight(b, 5), n.backlog) + Sum(ConsumerWeight(b), n.consumers) + Sum(PacketWeight(b, 2), n.msgChan)
  }

  function EngineRank(b: Bounds, e: EngineState): nat {
    LoopWeight(b, e.loop) + Sum(AttemptWeight(b), e.attempts)
  }

  function Rank(b: Bounds, s: State): nat {
    NetRank(b, s.net) + EngineRank(b, s.eng) + Sum(CallerWeight(b), s.callers)
  }

  // Every step that is not an input decreases the rank

  lemma DeliverDecreases(b: Bounds, n: Net, closed: bool, i: nat, k: nat)
    requires ConsumerEnabled(n, closed, i, Deliver(k))
    ensures NetRank(b, ConsumerDo(n, closed, i, Deliver(k))) < NetRank(b, n)
  {
    var n' := ConsumerDo(n, closed, i, Deliver(k));
    SumSplit(PacketWeight(b, 5), n.backlog, k);
    SumSnoc(PacketWeight(b, 4), n.consumers[i].buffer, n.backlog[k]);
    SumUpdate(ConsumerWeight(b), n.consumers, i, n'.consumers[i]);
  }

  lemma PickDecreases(b: Bounds, n: Net, closed: bool, i: nat)
    requires ConsumerEnabled(n, closed, i, Pick)
    ensures NetRank(b, ConsumerDo(n, closed, i, Pick)) < NetRank(b, n)
  {
    var n' := ConsumerDo(n, closed, i, Pick);
    SumTail(PacketWeight(b, 4), n.consumers[i].buffer);
    SumUpdate(ConsumerWeight(b), n.consumers, i, n'.consumers[i]);
  }

  lemma SendDecreases(b: Bounds, n: Net, closed: bool, i: nat)
    requires ConsumerEnabled(n, closed, i, Send)
    ensures NetRank(b, ConsumerDo(n, closed, i, Send)) < NetRank(b, n)
  {
    var n' := ConsumerDo(n, closed, i, Send);
    SumSnoc(PacketWeight(b, 2), n.msgChan, n.consumers[i].held.value);
    SumUpdate(ConsumerWeight(b), n.consumers, i, n'.consumers[i]);
  }

  lemma ConsumeDecreases(b: Bounds, n: Net, closed: bool, i: nat, action: ConsumerAction)
    requires ConsumerEnabled(n, closed, i, action)
    ensures NetRank(b, ConsumerDo(n, closed, i, action)) < NetRank(b, n)
  {
    match action
    case Deliver(k) => DeliverDecreases(b, n, closed, i, k);
    case Pick => PickDecreases(b, n, closed, i);
    case Send => SendDecreases(b, n, closed, i);
    case Quit => SumUpdate(ConsumerWeight(b), n.consumers, i, ConsumerDo(n, closed, i, action).consumers[i]);
  }

  /** What each action other than Receive leaves for the loop to do. */
  lemma LoopMoves(w: World, b: Bounds, e: EngineState, msgChan: seq<Packet>, cancelled: bool, action: LoopAction)
    requires Provenance.Indexed(e) && LoopGuard.RulesBounded(e, b.rules) && LoopEnabled(e, msgChan, cancelled, action)
    requires action != Receive
    ensures var after := LoopDo(w, e, msgChan, cancelled, action).loop;
            LoopWeight(b, after) + (if action.RenderFails? || action.Spawn? then WorkerWeight(b) else 0)
            < LoopWeight(b, e.loop)
  {
    if e.loop.Testing? || e.loop.Matched? {
      assert |e.generations[e.loop.generation]| <= b.rules;
    }
  }

  lemma LoopDecreases(w: World, b: Bounds, e: EngineState, msgChan: seq<Packet>, cancelled: bool, action: LoopAction)
    requires Provenance.Indexed(e) && LoopGuard.RulesBounded(e, b.rules) && LoopEnabled(e, msgChan, cancelled, action)
    requires action != Receive
    ensures EngineRank(b, LoopDo(w, e, msgChan, cancelled, action)) < EngineRank(b, e)
  {
    var e' := LoopDo(w, e, msgChan, cancelled, action);
    LoopMoves(w, b, e, msgChan, cancelled, action);
    if action.RenderFails? || action.Spawn? {
      SumSnoc(AttemptWeight(b), e.attempts, e'.attempts[|e.attempts|]);
      assert AttemptWeight(b)(e'.attempts[|e.attempts|]) <= WorkerWeight(b);
    }
  }

  lemma ReceiveDecreases(w: World, b: Bounds, e: EngineState, n: Net, cancelled: bool)
    requires LoopEnabled(e, n.msgChan, cancelled, Receive)
    ensures NetRank(b, n.(msgChan := n.msgChan[1..])) + EngineRank(b, LoopDo(w, e, n.msgChan, cancelled, Receive))
            < NetRank(b, n) + EngineRank(b, e)
  {
    SumTail(PacketWeight(b, 2), n.msgChan);
  }

  lemma SumTail<T>(f: T -> nat, xs: seq<T>)
    requires xs != []
    ensures Sum(f, xs) == f(xs[0]) + Sum(f, xs[1..])
  {
    SumConcat(f, [xs[0]], xs[1..]);
    assert xs == [xs[0]] + xs[1..];
    SumSnoc(f, [], xs[0]);
    assert [] + [xs[0]] == [xs[0]];
  }

  lemma {:induction false} GuardedWeights(b: Bounds, ps: seq<Packet>)
    requires LoopGuard.AllStamped(ps) && forall p :: p in ps ==> p.source.Own?
    ensures Sum(PacketWeight(b, 5), ps) == 5 * |ps|
  {
    if ps != [] {
      GuardedWeights(b, ps[..|ps| - 1]);
      assert ps[|ps| - 1] in ps;
    }
  }

  lemma WorkDecreases(w: World, b: Bounds, s: State, k: nat, action: WorkerAction)
    requires Bounded(w, s, b) && WorkerEnabled(s.eng, s.flags, k, action)
    ensures NetRank(b, Enqueue(s.net, Enqueued(w, s.eng, s.flags, k, action)))
            + EngineRank(b, WorkerDo(s.eng, s.flags, k, action)) < NetRank(b, s.net) + EngineRank(b, s.eng)
  {
    var e' := WorkerDo(s.eng, s.flags, k, action);
    var ps := Enqueued(w, s.eng, s.flags, k, action);
    SumUpdate(AttemptWeight(b), s.eng.attempts, k, e'.attempts[k]);
    SumConcat(PacketWeight(b, 5), s.net.backlog, ps);
    if ps != [] {
      var rule := RuleOf(s.eng, s.eng.attempts[k]);
      assert RouteCount(w)(rule) <= b.copies;
      LoopGuard.CopiesAreStamped(w.route(rule.response.exchange, rule.response.routingKey), rule, s.eng.attempts[k].body, k);
    }
    GuardedWeights(b, ps);
  }

  lemma CallLowersWeight(b: Bounds, f: Flags, t: nat, pc: Caller, action: CallerAction)
    requires CallerReady(f, pc, action) && Fits(f.cfg, b) && (IsReload(pc) ==> Fits(pc.cfg, b))
    ensures var effect := CallerEffect(f, pc, action);
            CallerWeight(b)(CallerPc(f, pc, action)) + (if effect.AddConsumer? || effect.StartLoop? then 1 else 0)
            < CallerWeight(b)(pc)
  {
    if action.Declare? {
      DesiredOrderBound(if pc.StartLocked? then f.cfg else pc.cfg, action.order);
    }
  }

  /** A new consumer and a started loop each add one step. */
  lemma EffectRank(b: Bounds, n: Net, e: EngineState, effect: Effect)
    requires effect.StartLoop? ==> e.loop.NotStarted?
    ensures NetRank(b, ApplyToNet(n, effect)) + EngineRank(b, ApplyToEngine(e, effect)) ==
            NetRank(b, n) + EngineRank(b, e) + if effect.AddConsumer? || effect.StartLoop? then 1 else 0
  {
    if effect.AddConsumer? {
      SumSnoc(ConsumerWeight(b), n.consumers, Consumer(effect.queue, [], None, true));
    }
  }

  lemma CallDecreases(w: World, b: Bounds, s: State, t: nat, action: CallerAction)
    requires Shutdown.Inv(s) && Bounded(w, s, b) && Enabled(s, Call(t, action))
    ensures Rank(b, Do(w, s, Call(t, action))) < Rank(b, s)
  {
    CallLowersWeight(b, s.flags, t, s.callers[t], action);
    SumUpdate(CallerWeight(b), s.callers, t, CallerPc(s.flags, s.callers[t], action));
    Shutdown.CallKeepsInv(s, t, action);
    EffectRank(b, s.net, s.eng, CallerEffect(s.flags, s.callers[t], action));
  }

  lemma StepDecreases(w: World, b: Bounds, s: State, step: Step)
    requires Reachable(w, s) && Bounded(w, s, b) && Enabled(s, step) && !IsEnvironmentStep(step)
    ensures Rank(b, Do(w, s, step)) < Rank(b, s)
  {
    match step
    case Consume(i, action) => ConsumeDecreases(b, s.net, s.flags.closed, i, action);
    case Process(action) =>
      Provenance.InvReachable(w, s);
      if action.Receive? {
        ReceiveDecreases(w, b, s.eng, s.net, s.flags.cancelled);
      } else {
        LoopDecreases(w, b, s.eng, s.net.msgChan, s.flags.cancelled, action);
      }
    case Work(k, action) => WorkDecreases(w, b, s, k, action);
    case Call(t, action) =>
      Shutdown.InvReachable(w, s);
      CallDecreases(w, b, s, t, action);
  }

  lemma StepKeepsBounds(w: World, b: Bounds, s: State, step: Step)
    requires Bounded(w, s, b) && Enabled(s, step) && !IsEnvironmentStep(step)
    ensures Bounded(w, Do(w, s, step), b)
  {
    if step.Call? {
      var pc, pc' := s.callers[step.t], CallerPc(s.flags, s.callers[step.t], step.call);
      assert IsReload(pc') ==> IsReload(pc) && pc'.cfg == pc.cfg;
    }
  }

  ghost predicate IsInternal(steps: seq<Step>) {
    forall j :: 0 <= j < |steps| ==> !IsEnvironmentStep(steps[j])
  }

  /** Without input from outside, a run takes at most Rank steps: publications that the broker
      routes back to the engine's own queues die out. */
  lemma {:induction false} ActivityIsBounded(w: World, b: Bounds, s: State, steps: seq<Step>, t: State)
    requires Reachable(w, s) && Bounded(w, s, b) && Run(w, s, steps, t) && IsInternal(steps)
    ensures |steps| + Rank(b, t) <= Rank(b, s)
    decreases steps
  {
    if steps != [] {
      StepDecreases(w, b, s, steps[0]);
      StepKeepsBounds(w, b, s, steps[0]);
      ReachableStep(w, s, steps[0]);
      ActivityIsBounded(w, b, Do(w, s, steps[0]), steps[1..], t);
    }
  }

  /** Nothing can happen without input from outside. */
  ghost predicate Quiescent(s: State) {
    forall step :: Enabled(s, step) ==> IsEnvironmentStep(step)
  }

  /** So from every state there is a bound on the length of the runs without input. */
  lemma ActivityDiesOut(w: World, s: State) returns (n: nat)
    requires Reachable(w, s)
    ensures forall steps, t :: Run(w, s, steps, t) && IsInternal(steps) ==> |steps| <= n
  {
    var b := BoundsExist(w, s);
    n := Rank(b, s);
    forall steps, t | Run(w, s, steps, t) && IsInternal(steps) ensures |steps| <= n {
      ActivityIsBounded(w, b, s, steps, t);
    }
  }

  /** A Stop gives up waiting for the workers. */
  predicate IsTimeout(step: Step) {
    step.Call? && step.call.SeeTimeout?
  }

  /** Nothing can happen without input from outside, unless a Stop times out. */
  ghost predicate AtRest(s: State) {
    forall step :: Enabled(s, step) ==> IsEnvironmentStep(step) || IsTimeout(step)
  }

  /** Nothing can happen but calls and inputs from outside. */
  ghost predicate IsQuiet(s: State) {
    forall step :: Enabled(s, step) ==> IsEnvironmentStep(step) || step.Call?
  }

  // States at rest

  lemma WriterCanMove(w: World, s: State, t: nat)
    requires Reachable(w, s) && t < |s.callers| && HoldsWriter(s.callers[t])
    ensures !AtRest(s)
  {
    Shutdown.CloseCannotBlock(w, s, t);
    if s.callers[t].Disconnecting? {
      assert Enabled(s, Call(t, Disconnect));
    } else if i :| 0 <= i < |s.net.consumers| && s.net.consumers[i].alive {
      assert Enabled(s, Consume(i, Quit));
    } else {
      assert Enabled(s, Call(t, LeaveClose));
    }
  }

  lemma WritersLeave(w: World, s: State)
    requires Reachable(w, s) && AtRest(s)
    ensures s.flags.writer == None
  {
    Shutdown.InvReachable(w, s);
    if s.flags.writer.Some? {
      WriterCanMove(w, s, s.flags.writer.value);
    }
  }

  lemma LoopIsDone(w: World, s: State)
    requires Reachable(w, s) && IsQuiet(s)
    ensures s.eng.loop.NotStarted? || s.eng.loop.Ended? || (s.eng.loop.Idle? && s.net.msgChan == [] && !s.flags.cancelled)
  {
    Provenance.NeverOutOfRange(w, s);
    assert !Enabled(s, Process(LogReceived)) && !Enabled(s, Process(Snapshot)) && !Enabled(s, Process(TestRule));
    assert !Enabled(s, Process(Spawn(""))) && !Enabled(s, Process(Receive)) && !Enabled(s, Process(EndLoop));
  }

  lemma WorkerIsDone(w: World, s: State, k: nat)
    requires Reachable(w, s) && AtRest(s) && s.flags.writer == None && k < |s.eng.attempts|
    ensures !s.eng.attempts[k].live && s.eng.attempts[k].phase in {RenderFailed, Cancelled, PublishFailed, Recorded}
  {
    Provenance.InvReachable(w, s);
    assert !Enabled(s, Work(k, Elapse)) && !Enabled(s, Work(k, Publish(true)));
    assert !Enabled(s, Work(k, LogPublished)) && !Enabled(s, Work(k, Finish));
  }

  /** The loop waits for messages or has ended, every worker is done and every attempt has an
      outcome. */
  lemma WorkersAreDone(w: World, s: State)
    requires Reachable(w, s) && AtRest(s)
    ensures s.eng.loop.NotStarted? || s.eng.loop.Ended? || (s.eng.loop.Idle? && s.net.msgChan == [] && !s.flags.cancelled)
    ensures forall k :: 0 <= k < |s.eng.attempts| ==>
              !s.eng.attempts[k].live && s.eng.attempts[k].phase in {RenderFailed, Cancelled, PublishFailed, Recorded}
  {
    LoopIsDone(w, s);
    WritersLeave(w, s);
    forall k | 0 <= k < |s.eng.attempts|
      ensures !s.eng.attempts[k].live && s.eng.attempts[k].phase in {RenderFailed, Cancelled, PublishFailed, Recorded}
    {
      WorkerIsDone(w, s, k);
    }
  }

  /** Once the context is cancelled, a state at rest is drained. */
  lemma CancelledIsDrained(w: World, s: State)
    requires Reachable(w, s) && AtRest(s) && s.flags.cancelled
    ensures s.eng.wg == 0
  {
    Shutdown.InvReachable(w, s);
    WorkersAreDone(w, s);
    SumZero(Shutdown.LiveWeight, s.eng.attempts);
  }

  /** A caller that has not returned has an enabled step, once the locks it needs are free. */
  lemma CallerCanMove(s: State, t: nat)
    requires t < |s.callers| && !s.callers[t].Returned? && !s.callers[t].AwaitingConsumers? && !s.callers[t].Draining?
    requires s.flags.writer == None && (InsideMu(s.callers[t]) || s.flags.mu == None)
    ensures !AtRest(s)
  {
    var pc := s.callers[t];
    var cfg := if pc.ReloadLocked? then pc.cfg else s.flags.cfg;
    DesiredOrderExists(cfg);
    var declare := Declare(true, DistinctNames(ListedQueues(cfg)));
    assert Enabled(s, Call(t, Begin)) || Enabled(s, Call(t, declare)) || Enabled(s, Call(t, Subscribe(true)))
        || Enabled(s, Call(t, Commit)) || Enabled(s, Call(t, FlagStop)) || Enabled(s, Call(t, CancelContext))
        || Enabled(s, Call(t, EnterClose)) || Enabled(s, Call(t, Disconnect));
  }

  lemma DrainingCanFinish(s: State, t: nat)
    requires t < |s.callers| && s.callers[t].Draining? && s.eng.wg == 0
    ensures !AtRest(s)
  {
    assert Enabled(s, Call(t, SeeDrained));
  }

  lemma EveryCallerReturns(w: World, s: State, t: nat)
    requires Reachable(w, s) && AtRest(s) && t < |s.callers|
    requires InsideMu(s.callers[t]) || s.flags.mu == None
    ensures s.callers[t].Returned?
  {
    Shutdown.InvReachable(w, s);
    WritersLeave(w, s);
    if s.callers[t].Draining? {
      assert Shutdown.IsStopper(s.callers[t]);
      CancelledIsDrained(w, s);
      DrainingCanFinish(s, t);
    } else if !s.callers[t].Returned? {
      CallerCanMove(s, t);
    }
  }

  /** No deadlock, even if no Stop ever times out: when nothing else can happen, every call of
      Start, Reload, Stop and Close has returned and every lock is free. */
  lemma NobodyIsBlocked(w: World, s: State)
    requires Reachable(w, s) && AtRest(s)
    ensures forall t :: 0 <= t < |s.callers| ==> s.callers[t].Returned?
    ensures s.flags.mu == None && s.flags.writer == None
    ensures Quiescent(s)
  {
    Shutdown.InvReachable(w, s);
    WritersLeave(w, s);
    if s.flags.mu.Some? {
      EveryCallerReturns(w, s, s.flags.mu.value);
    }
    forall t | 0 <= t < |s.callers| ensures s.callers[t].Returned? {
      EveryCallerReturns(w, s, t);
    }
  }

  // Quiescent states

  ghost predicate HasNoTimeout(steps: seq<Step>) {
    forall j :: 0 <= j < |steps| ==> !IsTimeout(steps[j])
  }

  lemma {:induction false} SettlesWithin(w: World, b: Bounds, s: State) returns (steps: seq<Step>, t: State)
    requires Reachable(w, s) && Bounded(w, s, b)
    ensures Run(w, s, steps, t) && IsInternal(steps) && HasNoTimeout(steps) && Quiescent(t) && Reachable(w, t)
    decreases Rank(b, s)
  {
    if AtRest(s) {
      NobodyIsBlocked(w, s);
      steps, t := [], s;
    } else {
      var step :| Enabled(s, step) && !IsEnvironmentStep(step) && !IsTimeout(step);
      StepDecreases(w, b, s, step);
      StepKeepsBounds(w, b, s, step);
      ReachableStep(w, s, step);
      var rest;
      rest, t := SettlesWithin(w, b, Do(w, s, step));
      steps := [step] + rest;
      assert steps[1..] == rest;
    }
  }

  /** From every reachable state some run without input, in which no Stop times out, reaches a
      quiescent state. */
  lemma Settles(w: World, s: State) returns (steps: seq<Step>, t: State)
    requires Reachable(w, s)
    ensures Run(w, s, steps, t) && IsInternal(steps) && HasNoTimeout(steps) && Quiescent(t) && Reachable(w, t)
  {
    var b := BoundsExist(w, s);
    steps, t := SettlesWithin(w, b, s);
  }

  /** In a quiescent state the loop waits for messages or has ended, every worker is done and
      every attempt has an outcome; if the engine was stopped, it is drained. */
  lemma NothingIsRunning(w: World, s: State)
    requires Reachable(w, s) && Quiescent(s)
    ensures s.eng.loop.NotStarted? || s.eng.loop.Ended? || (s.eng.loop.Idle? && s.net.msgChan == [])
    ensures forall k :: 0 <= k < |s.eng.attempts| ==>
              !s.eng.attempts[k].live && s.eng.attempts[k].phase in {RenderFailed, Cancelled, PublishFailed, Recorded}
    ensures s.flags.stopped ==> s.eng.wg == 0
  {
    WorkersAreDone(w, s);
    if s.flags.stopped {
      Shutdown.InvReachable(w, s);
      NobodyIsBlocked(w, s);
      var t :| 0 <= t < |s.callers| && Shutdown.IsStopper(s.callers[t]);
      CancelledIsDrained(w, s);
    }
  }

  /** Consumers only end when the driver is closed or the connection is lost, and the process
      loop only ends when the engine's context is cancelled. */
  ghost predicate EndsForAReason(s: State) {
    && (s.net.link && !s.flags.closed ==> forall i :: 0 <= i < |s.net.consumers| ==> s.net.consumers[i].alive)
    && (s.eng.loop.Ended? ==> s.flags.cancelled)
  }

  lemma EndsForAReasonStep(w: World, s: State, step: Step)
    requires Shutdown.Inv(s) && EndsForAReason(s) && Enabled(s, step)
    ensures EndsForAReason(Do(w, s, step))
  {
    match step
    case Call(t, action) =>
      Shutdown.CallIsStopMove(s.flags, t, s.callers[t], action);
      Shutdown.CallKeepsInv(s, t, action);
    case _ =>
  }

  lemma ReasonReachable(w: World, s: State)
    requires Reachable(w, s)
    ensures EndsForAReason(s)
  {
    forall u, step | Reachable(w, u) && EndsForAReason(u) && Enabled(u, step) ensures EndsForAReason(Do(w, u, step)) {
      Shutdown.InvReachable(w, u);
      EndsForAReasonStep(w, u, step);
    }
    KeptFromStart(w, EndsForAReason, s);
  }

  lemma {:induction false} FirstOnQueue(q: string, ps: seq<Packet>, k: nat) returns (j: nat)
    requires k < |ps| && ps[k].msg.queue == q
    ensures j <= k && ps[j].msg.queue == q && forall i :: 0 <= i < j ==> ps[i].msg.queue != q
    decreases k
  {
    if i :| 0 <= i < k && ps[i].msg.queue == q {
      j := FirstOnQueue(q, ps, i);
    } else {
      j := k;
    }
  }

  /** The consumer of a working driver has passed on all that was ever delivered to it, and the
      broker has delivered all that is on its queue. */
  lemma ConsumersAreEmpty(w: World, s: State, i: nat)
    requires Reachable(w, s) && IsQuiet(s) && s.net.link && !s.flags.closed && s.net.msgChan == []
    requires i < |s.net.consumers|
    ensures Order.InFlight(s.net.consumers[i]) == [] && Of(s.net.consumers[i].queue, s.net.backlog) == []
  {
    var c := s.net.consumers[i];
    ReasonReachable(w, s);
    assert !Enabled(s, Consume(i, Send)) && !Enabled(s, Consume(i, Pick));
    if k :| 0 <= k < |s.net.backlog| && s.net.backlog[k].msg.queue == c.queue {
      var j := FirstOnQueue(c.queue, s.net.backlog, k);
      assert Enabled(s, Consume(i, Deliver(j)));
    }
    SelectNone(OnQueue(c.queue), s.net.backlog);
  }

  /** When a running engine on a working driver has come to rest, the spy has recorded exactly
      the messages that arrived on each subscribed queue, in order of arrival. */
  lemma EverythingIsRecorded(w: World, s: State, q: string)
    requires Reachable(w, s) && Quiescent(s) && s.flags.running && s.net.link && !s.flags.closed
    requires Order.AtMostOne(q, s.net.consumers) && q in s.flags.subscribed
    ensures Of(q, Order.Received(s.eng.history)) == Of(q, s.net.arrived)
  {
    Shutdown.InvReachable(w, s);
    Order.InvReachable(w, s);
    NothingIsRunning(w, s);
    ReasonReachable(w, s);
    var c :| c in s.net.consumers && c.queue == q;
    var i :| 0 <= i < |s.net.consumers| && s.net.consumers[i] == c;
    ConsumersAreEmpty(w, s, i);
    Order.HeldForAt(s.net.consumers, i);
    Order.EndToEndOrder(w, s, q);
  }

  // What a return of Stop guarantees

  /** From a stopped state on, nothing is handled, published or recorded any more exactly when
      the workers are already drained. A Stop that finds the engine stopped returns without an
      error in both cases. */
  lemma FinalExactlyWhenDrained(w: World, s: State)
    requires Reachable(w, s) && s.flags.stopped
    ensures (forall t :: LeadsTo(w, s, t) ==> t.eng == s.eng) <==> s.eng.wg == 0
  {
    var inv := (u: State) => u.flags.stopped && (s.eng.wg == 0 ==> u.eng == s.eng);
    forall u, step | Reachable(w, u) && inv(u) && Enabled(u, step) ensures inv(Do(w, u, step)) {
      if step.Call? {
        Shutdown.CallIsStopMove(u.flags, step.t, u.callers[step.t], step.call);
      }
      if s.eng.wg == 0 {
        Shutdown.NoAddAfterZero(w, u, step);
      }
    }
    if s.eng.wg == 0 {
      forall t | LeadsTo(w, s, t) ensures t.eng == s.eng {
        var steps :| Run(w, s, steps, t);
        KeptOnRun(w, inv, s, steps, t);
      }
    } else {
      var steps, t := Settles(w, s);
      KeptOnRun(w, inv, s, steps, t);
      NothingIsRunning(w, t);
      assert LeadsTo(w, s, t) && t.eng.wg != s.eng.wg;
    }
  }
}
