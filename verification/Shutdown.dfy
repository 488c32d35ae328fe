/** Shutdown over all interleavings: WaitGroup accounting, lock ownership, draining before
    closing, and the driver's close protocol. */
module Shutdown {
  import opened Basics
  import opened Config
  import opened Pipeline

  function LiveWeight(a: Attempt): nat {
    if a.live then 1 else 0
  }

  function AliveWeight(c: Consumer): nat {
    if c.alive then 1 else 0
  }

  function LoopWeight(loop: Loop): nat {
    if loop.NotStarted? || loop.Ended? then 0 else 1
  }

  /** The caller found the engine not yet stopped and is now the one shutting it down. */
  predicate IsStopper(pc: Caller) {
    match pc
    case Flagged => true
    case Draining => true
    case Closing(reason) => reason != Direct
    case Disconnecting(reason) => reason != Direct
    case AwaitingConsumers(reason) => reason != Direct
    case Returned(outcome) => outcome.ClosedBy? && outcome.reason != Direct
    case _ => false
  }

  /** The caller saw the WaitGroup at zero. */
  predicate HasDrained(pc: Caller) {
    match pc
    case Closing(reason) => reason == Drained
    case Disconnecting(reason) => reason == Drained
    case AwaitingConsumers(reason) => reason == Drained
    case Returned(outcome) => outcome == ClosedBy(Drained)
    case _ => false
  }

  predicate HasClosed(pc: Caller) {
    pc.Returned? && pc.outcome.ClosedBy?
  }

  // The invariant, one concern at a time

  /** Each lock is held by exactly the caller whose program counter is in its section. */
  ghost predicate Locks(callers: seq<Caller>, f: Flags) {
    && (f.mu.Some? ==> f.mu.value < |callers| && !f.stopped)
    && (f.writer.Some? ==> f.writer.value < |callers| && f.closed)
    && (forall t :: 0 <= t < |callers| ==> (InsideMu(callers[t]) <==> f.mu == Some(t)))
    && (forall t :: 0 <= t < |callers| ==> (HoldsWriter(callers[t]) <==> f.writer == Some(t)))
  }

  predicate IsStarting(pc: Caller) {
    pc.StartLocked? || pc.Starting?
  }

  predicate IsReloading(pc: Caller) {
    pc.ReloadLocked? || pc.Reloading?
  }

  /** `started`: the process loop has been started. */
  ghost predicate Lifecycle(callers: seq<Caller>, f: Flags, started: bool) {
    && (f.stopped ==> !f.running)
    && (!f.stopped ==> (f.running <==> started))
    && (forall t :: 0 <= t < |callers| ==>
          (IsStarting(callers[t]) ==> !f.running) && (IsReloading(callers[t]) ==> f.running))
  }

  /** At most one caller of Stop shuts the engine down, and only it cancels the context. */
  ghost predicate OneStopper(callers: seq<Caller>, f: Flags) {
    && (f.cancelled ==> f.stopped)
    && (forall t :: 0 <= t < |callers| && IsStopper(callers[t]) ==> f.stopped && f.cancelled == !callers[t].Flagged?)
    && (forall t, u :: 0 <= t < u < |callers| ==> !(IsStopper(callers[t]) && IsStopper(callers[u])))
  }

  /** A stopped engine has a caller that is shutting it down or has done so. */
  ghost predicate SomeStopper(callers: seq<Caller>, f: Flags) {
    f.stopped ==> exists t :: 0 <= t < |callers| && IsStopper(callers[t])
  }

  ghost predicate DrainedFirst(callers: seq<Caller>, wg: int) {
    forall t :: 0 <= t < |callers| && HasDrained(callers[t]) ==> wg == 0
  }

  ghost predicate ClosedMeansGone(callers: seq<Caller>, f: Flags, consumerCount: int) {
    && (f.closed && f.writer == None ==> consumerCount == 0)
    && (forall t :: 0 <= t < |callers| && HasClosed(callers[t]) ==> f.closed && consumerCount == 0)
  }

  /** The WaitGroup counts the live process loop and the live workers. */
  ghost predicate WorkersCounted(e: EngineState) {
    e.wg == LoopWeight(e.loop) + Sum(LiveWeight, e.attempts)
  }

  ghost predicate ConsumersCounted(n: Net) {
    n.consumerCount == Sum(AliveWeight, n.consumers)
  }

  ghost predicate CallersInv(callers: seq<Caller>, f: Flags, started: bool, wg: int, consumerCount: int) {
    && Locks(callers, f)
    && Lifecycle(callers, f, started)
    && OneStopper(callers, f) && SomeStopper(callers, f)
    && DrainedFirst(callers, wg)
    && ClosedMeansGone(callers, f, consumerCount)
  }

  ghost predicate Inv(s: State) {
    && WorkersCounted(s.eng)
    && ConsumersCounted(s.net)
    && CallersInv(s.callers, s.flags, !s.eng.loop.NotStarted?, s.eng.wg, s.net.consumerCount)
  }

  // What one caller's step may do to its program counter and the flags

  predicate LockMove(t: nat, pc: Caller, pc': Caller, f: Flags, f': Flags) {
    && f'.mu == (if InsideMu(pc') then Some(t) else if InsideMu(pc) then None else f.mu)
    && (InsideMu(pc') && !InsideMu(pc) ==> f.mu == None)
    && (f'.mu.Some? ==> !f'.stopped)
    && f'.writer == (if HoldsWriter(pc') then Some(t) else if HoldsWriter(pc) then None else f.writer)
    && (HoldsWriter(pc') && !HoldsWriter(pc) ==> f.writer == None)
    && (f.closed || HoldsWriter(pc') ==> f'.closed)
  }

  predicate LifecycleMove(pc: Caller, pc': Caller, f: Flags, f': Flags, effect: Effect) {
    && (IsStarting(pc') ==> !f'.running)
    && (IsReloading(pc') ==> f'.running)
    && (f'.running != f.running ==> f.mu == None || InsideMu(pc))
    && (f'.stopped ==> !f'.running)
    && (!f'.stopped ==> (f'.running <==> f.running || effect.StartLoop?))
    && (f.stopped ==> f'.stopped && (effect.Nothing? || effect.CutLink?))
    && (effect.StartLoop? ==> !f.running)
    && (effect.AddConsumer? ==> !f.closed)
  }

  predicate StopMove(pc: Caller, pc': Caller, f: Flags, f': Flags) {
    && (IsStopper(pc) ==> IsStopper(pc') && !pc'.Flagged?)
    && (IsStopper(pc') && !IsStopper(pc) ==> pc'.Flagged? && !f.stopped && f'.stopped)
    && f'.stopped == (f.stopped || pc'.Flagged?)
    && f'.cancelled == (f.cancelled || pc.Flagged?)
  }

  predicate CloseMove(pc: Caller, pc': Caller, f: Flags, f': Flags, consumerCount: int) {
    && (f'.closed && f'.writer == None && !(f.closed && f.writer == None) ==> consumerCount == 0)
    && (HasClosed(pc') && !HasClosed(pc) ==> f'.closed && f'.writer == None)
    && (f.closed ==> f'.closed)
  }

  lemma CallIsLockMove(f: Flags, t: nat, pc: Caller, action: CallerAction)
    requires CallerReady(f, pc, action) && (f.mu.Some? ==> !f.stopped) && (InsideMu(pc) ==> f.mu == Some(t))
    requires HoldsWriter(pc) ==> f.writer == Some(t) && f.closed
    ensures LockMove(t, pc, CallerPc(f, pc, action), f, CallerFlags(f, t, pc, action))
  {
  }

  lemma CallIsLifecycleMove(f: Flags, t: nat, pc: Caller, action: CallerAction)
    requires CallerReady(f, pc, action) && (InsideMu(pc) ==> !f.stopped)
    requires (IsStarting(pc) ==> !f.running) && (IsReloading(pc) ==> f.running) && (f.stopped ==> !f.running)
    ensures LifecycleMove(pc, CallerPc(f, pc, action), f, CallerFlags(f, t, pc, action), CallerEffect(f, pc, action))
  {
  }

  lemma CallIsStopMove(f: Flags, t: nat, pc: Caller, action: CallerAction)
    requires CallerReady(f, pc, action)
    ensures StopMove(pc, CallerPc(f, pc, action), f, CallerFlags(f, t, pc, action))
  {
  }

  lemma CallIsCloseMove(f: Flags, t: nat, pc: Caller, action: CallerAction, wg: int, n: int)
    requires CallerEnabled(f, wg, n, pc, action) && (HoldsWriter(pc) ==> f.writer == Some(t) && f.closed)
    ensures CloseMove(pc, CallerPc(f, pc, action), f, CallerFlags(f, t, pc, action), n)
  {
  }

  lemma MoveKeepsLocks(callers: seq<Caller>, t: nat, pc': Caller, f: Flags, f': Flags)
    requires t < |callers| && Locks(callers, f) && LockMove(t, callers[t], pc', f, f')
    ensures Locks(callers[t := pc'], f')
  {
  }

  lemma MoveKeepsLifecycle(
    callers: seq<Caller>, t: nat, pc': Caller, f: Flags, f': Flags, started: bool, effect: Effect)
    requires t < |callers| && Locks(callers, f) && Lifecycle(callers, f, started)
    requires LifecycleMove(callers[t], pc', f, f', effect)
    ensures Lifecycle(callers[t := pc'], f', started || effect.StartLoop?)
  {
  }

  lemma MoveKeepsOneStopper(callers: seq<Caller>, t: nat, pc': Caller, f: Flags, f': Flags)
    requires t < |callers| && OneStopper(callers, f) && StopMove(callers[t], pc', f, f')
    ensures OneStopper(callers[t := pc'], f')
  {
  }

  lemma MoveKeepsSomeStopper(callers: seq<Caller>, t: nat, pc': Caller, f: Flags, f': Flags)
    requires t < |callers| && SomeStopper(callers, f) && StopMove(callers[t], pc', f, f')
    ensures SomeStopper(callers[t := pc'], f')
  {
    if f.stopped {
      var u :| 0 <= u < |callers| && IsStopper(callers[u]);
      assert IsStopper(callers[t := pc'][u]);
    } else if f'.stopped {
      assert IsStopper(callers[t := pc'][t]);
    }
  }

  predicate Move(t: nat, pc: Caller, pc': Caller, f: Flags, f': Flags, effect: Effect, wg: int, consumerCount: int) {
    && LockMove(t, pc, pc', f, f') && LifecycleMove(pc, pc', f, f', effect)
    && StopMove(pc, pc', f, f') && CloseMove(pc, pc', f, f', consumerCount)
    && (HasDrained(pc') && !HasDrained(pc) ==> wg == 0)
  }

  lemma MoveKeepsInv(
    callers: seq<Caller>, t: nat, pc': Caller, f: Flags, f': Flags, effect: Effect, started: bool, wg: int, consumerCount: int)
    requires t < |callers| && CallersInv(callers, f, started, wg, consumerCount)
    requires Move(t, callers[t], pc', f, f', effect, wg, consumerCount)
    ensures CallersInv(callers[t := pc'], f', started || effect.StartLoop?, wg, consumerCount)
    ensures (effect.StartLoop? ==> !started) && (effect.AddConsumer? ==> !f.closed)
    ensures f.stopped ==> effect.Nothing? || effect.CutLink?
  {
    MoveKeepsLocks(callers, t, pc', f, f');
    MoveKeepsLifecycle(callers, t, pc', f, f', started, effect);
    MoveKeepsOneStopper(callers, t, pc', f, f');
    MoveKeepsSomeStopper(callers, t, pc', f, f');
  }

  /** One step of caller t keeps the callers' part of the invariant. */
  lemma CallKeepsInv(s: State, t: nat, action: CallerAction)
    requires Inv(s) && t < |s.callers|
    requires CallerEnabled(s.flags, s.eng.wg, s.net.consumerCount, s.callers[t], action)
    ensures var pc, effect := s.callers[t], CallerEffect(s.flags, s.callers[t], action);
            && CallersInv(s.callers[t := CallerPc(s.flags, pc, action)], CallerFlags(s.flags, t, pc, action),
                          !s.eng.loop.NotStarted? || effect.StartLoop?, s.eng.wg, s.net.consumerCount)
            && (effect.StartLoop? ==> s.eng.loop.NotStarted?)
            && (effect.AddConsumer? ==> !s.flags.closed)
            && (s.flags.stopped ==> effect.Nothing? || effect.CutLink?)
  {
    var f, pc := s.flags, s.callers[t];
    CallIsLockMove(f, t, pc, action);
    CallIsLifecycleMove(f, t, pc, action);
    CallIsStopMove(f, t, pc, action);
    CallIsCloseMove(f, t, pc, action, s.eng.wg, s.net.consumerCount);
    MoveKeepsInv(s.callers, t, CallerPc(f, pc, action), f, CallerFlags(f, t, pc, action), CallerEffect(f, pc, action),
                 !s.eng.loop.NotStarted?, s.eng.wg, s.net.consumerCount);
  }

  lemma InvokeKeepsInv(s: State, pc: Caller)
    requires Inv(s) && IsEntryPoint(pc)
    ensures CallersInv(s.callers + [pc], s.flags, !s.eng.loop.NotStarted?, s.eng.wg, s.net.consumerCount)
  {
    if s.flags.stopped {
      var t :| 0 <= t < |s.callers| && IsStopper(s.callers[t]);
      assert IsStopper((s.callers + [pc])[t]);
    }
  }

  lemma ConsumerKeepsCount(n: Net, closed: bool, i: nat, action: ConsumerAction)
    requires ConsumersCounted(n) && ConsumerEnabled(n, closed, i, action)
    ensures var n' := ConsumerDo(n, closed, i, action);
            ConsumersCounted(n') && 0 <= n'.consumerCount <= n.consumerCount
  {
    SumUpdate(AliveWeight, n.consumers, i, ConsumerDo(n, closed, i, action).consumers[i]);
  }

  /** A new attempt is counted exactly if it has a worker. */
  lemma AttemptKeepsCount(w: World, e: EngineState, msgChan: seq<Packet>, cancelled: bool, action: LoopAction)
    requires WorkersCounted(e) && LoopEnabled(e, msgChan, cancelled, action)
    requires action.RenderFails? || action.Spawn?
    ensures WorkersCounted(LoopDo(w, e, msgChan, cancelled, action))
  {
    var e' := LoopDo(w, e, msgChan, cancelled, action);
    var a := e'.attempts[|e.attempts|];
    assert e'.attempts == e.attempts + [a] && e'.wg == e.wg + LiveWeight(a);
    SumSnoc(LiveWeight, e.attempts, a);
  }

  lemma LoopKeepsCount(w: World, e: EngineState, msgChan: seq<Packet>, cancelled: bool, action: LoopAction)
    requires WorkersCounted(e) && LoopEnabled(e, msgChan, cancelled, action)
    ensures var e' := LoopDo(w, e, msgChan, cancelled, action);
            WorkersCounted(e') && e'.loop.NotStarted? == e.loop.NotStarted? && e.wg > 0
  {
    if action.RenderFails? || action.Spawn? {
      AttemptKeepsCount(w, e, msgChan, cancelled, action);
    }
  }

  lemma WorkerKeepsCount(e: EngineState, f: Flags, k: nat, action: WorkerAction)
    requires WorkersCounted(e) && WorkerEnabled(e, f, k, action)
    ensures var e' := WorkerDo(e, f, k, action);
            WorkersCounted(e') && e'.loop == e.loop && e.wg > 0
  {
    SumUpdate(LiveWeight, e.attempts, k, WorkerDo(e, f, k, action).attempts[k]);
    SumSplit(LiveWeight, e.attempts, k);
  }

  lemma ProcessKeepsInv(w: World, s: State, action: LoopAction)
    requires Inv(s) && Enabled(s, Process(action))
    ensures Inv(Do(w, s, Process(action)))
  {
    LoopKeepsCount(w, s.eng, s.net.msgChan, s.flags.cancelled, action);
    assert DrainedFirst(s.callers, s.eng.wg);
  }

  lemma CallerKeepsInv(w: World, s: State, t: nat, action: CallerAction)
    requires Inv(s) && Enabled(s, Call(t, action))
    ensures Inv(Do(w, s, Call(t, action)))
  {
    CallKeepsInv(s, t, action);
    var effect := CallerEffect(s.flags, s.callers[t], action);
    if effect.AddConsumer? {
      SumSnoc(AliveWeight, s.net.consumers, Consumer(effect.queue, [], None, true));
    }
  }

  /** The invariant holds in every reachable state. */
  lemma InvReachable(w: World, s: State)
    requires Reachable(w, s)
    ensures Inv(s)
  {
    forall u, step | Inv(u) && Enabled(u, step) ensures Inv(Do(w, u, step)) {
      match step
      case Arrive(_) =>
      case LinkLost =>
      case Invoke(pc) => InvokeKeepsInv(u, pc);
      case Consume(i, action) => ConsumerKeepsCount(u.net, u.flags.closed, i, action);
      case Process(action) => ProcessKeepsInv(w, u, action);
      case Work(k, action) => WorkerKeepsCount(u.eng, u.flags, k, action);
      case Call(t, action) => CallerKeepsInv(w, u, t, action);
    }
    KeptFromStart(w, Inv, s);
  }

  // What the calls return

  /** In its next step a call returns exactly what the flags it sees, or the broker's refusal, call for. */
  lemma OutcomesAreRight(w: World, s: State, t: nat, action: CallerAction)
    requires Enabled(s, Call(t, action))
    ensures var pc, f, r := s.callers[t], s.flags, Do(w, s, Call(t, action)).callers[t];
            var refused := f.closed || (action.Declare? && !action.ok) || (action.Subscribe? && !action.ok);
            && (r == Returned(StartRefused) <==> pc.StartCalled? && f.stopped)
            && (r == Returned(AlreadyRunning) <==> pc.StartCalled? && !f.stopped && f.running)
            && (r == Returned(StartFailed) <==> (pc.StartLocked? || (pc.Starting? && pc.todo != [])) && refused)
            && (r == Returned(Started) <==> pc == Starting([]))
            && (r == Returned(ReloadRefused) <==> pc.ReloadCalled? && (f.stopped || !f.running))
            && (r == Returned(ReloadFailed) <==>
                  (pc.ReloadLocked? || (pc.Reloading? && pc.todo != [] && pc.todo[0] !in f.subscribed)) && refused)
            && (r == Returned(Reloaded) <==> pc.Reloading? && pc.todo == [])
            && (r == Returned(AlreadyStopped) <==> pc.StopCalled? && f.stopped)
            && (r.Returned? && r.outcome.ClosedBy? <==> pc.AwaitingConsumers? || (pc.Closing? && f.closed))
  {
  }

  /** A Stop that has seen everything drained closes the driver as drained, one whose context has
      expired as timed out, and whoever closes returns with the reason that it came with. */
  lemma ReasonsAreKept(w: World, s: State, t: nat, action: CallerAction)
    requires Enabled(s, Call(t, action))
    ensures var pc, r := s.callers[t], Do(w, s, Call(t, action)).callers[t];
            && (pc.Draining? && s.eng.wg == 0 && action.SeeDrained? ==> r == Closing(Drained))
            && (pc.Draining? && (s.eng.wg != 0 || !action.SeeDrained?) ==> r == Closing(TimedOut))
            && (pc.Closing? ==> r == Disconnecting(pc.reason) || r == Returned(ClosedBy(pc.reason)))
            && (pc.Disconnecting? ==> r == AwaitingConsumers(pc.reason))
            && (pc.AwaitingConsumers? ==> r == Returned(ClosedBy(pc.reason)))
  {
  }

  /** Any number of goroutines may call Start, Reload, Stop, or the driver's Close, at any time. */
  lemma AnyoneMayCall(w: World, s: State, cfg: Config)
    requires Reachable(w, s)
    ensures forall pc :: pc in {StartCalled, ReloadCalled(cfg), StopCalled, Closing(Direct)} ==>
              exists u :: Reachable(w, u) && u.callers == s.callers + [pc]
  {
    forall pc | pc in {StartCalled, ReloadCalled(cfg), StopCalled, Closing(Direct)}
      ensures exists u :: Reachable(w, u) && u.callers == s.callers + [pc]
    {
      ReachableStep(w, s, Invoke(pc));
    }
  }

  // The engine's shutdown

  /** The WaitGroup is only ever incremented by a goroutine it already counts, or before any
      Stop: once a Stop waits on it, it cannot rise from zero. */
  lemma NoAddAfterZero(w: World, s: State, step: Step)
    requires Reachable(w, s) && Enabled(s, step) && s.flags.stopped && s.eng.wg == 0
    ensures Do(w, s, step).eng == s.eng
  {
    InvReachable(w, s);
    match step
    case Process(action) => LoopKeepsCount(w, s.eng, s.net.msgChan, s.flags.cancelled, action);
    case Work(k, action) => WorkerKeepsCount(s.eng, s.flags, k, action);
    case Call(t, action) => CallKeepsInv(s, t, action);
    case _ =>
  }

  /** The engine is stopped and drained and the driver closed. */
  predicate Finished(s: State) {
    s.flags.stopped && s.eng.wg == 0 && s.flags.closed && s.net.consumerCount == 0
  }

  lemma FinishedStep(w: World, s: State, step: Step)
    requires Reachable(w, s) && Finished(s) && Enabled(s, step)
    ensures var s' := Do(w, s, step);
            Finished(s') && s'.eng == s.eng && s'.net.consumers == s.net.consumers && s'.net.msgChan == s.net.msgChan
  {
    InvReachable(w, s);
    NoAddAfterZero(w, s, step);
    SumZero(AliveWeight, s.net.consumers);
    if step.Call? {
      CallKeepsInv(s, step.t, step.call);
      CallIsStopMove(s.flags, step.t, s.callers[step.t], step.call);
      CallIsCloseMove(s.flags, step.t, s.callers[step.t], step.call, s.eng.wg, s.net.consumerCount);
    }
  }

  /** After a Stop that found the engine running returns without a timeout, nothing is ever
      handled, published or recorded again, and no consumer writes to the message channel. */
  lemma StopIsFinal(w: World, s: State, t: nat, steps: seq<Step>, u: State)
    requires Reachable(w, s) && t < |s.callers| && s.callers[t] == Returned(ClosedBy(Drained)) && Run(w, s, steps, u)
    ensures u.eng == s.eng && u.net.consumers == s.net.consumers && u.net.msgChan == s.net.msgChan
  {
    InvReachable(w, s);
    var inv := (v: State) =>
      Finished(v) && v.eng == s.eng && v.net.consumers == s.net.consumers && v.net.msgChan == s.net.msgChan;
    forall v, step | Reachable(w, v) && inv(v) && Enabled(v, step) ensures inv(Do(w, v, step)) {
      FinishedStep(w, v, step);
    }
    KeptOnRun(w, inv, s, steps, u);
  }

  /** Two callers of Stop never both shut the engine down, and the one that does reaches the
      driver's Close either after the drain or after its timeout. */
  lemma EngineClosesOnce(w: World, s: State, t: nat, u: nat)
    requires Reachable(w, s) && t < |s.callers| && u < |s.callers|
    requires IsStopper(s.callers[t]) && IsStopper(s.callers[u])
    ensures t == u
    ensures HoldsWriter(s.callers[t]) && s.callers[t].reason == Drained ==>
              s.eng.wg == 0 && forall k :: 0 <= k < |s.eng.attempts| ==> !s.eng.attempts[k].live
  {
    InvReachable(w, s);
    SumZero(LiveWeight, s.eng.attempts);
  }

  /** In this step the engine, as opposed to somebody else, enters the driver's Close. */
  predicate IsEngineClose(s: State, step: Step) {
    && step.Call? && step.call.EnterClose? && step.t < |s.callers|
    && s.callers[step.t].Closing? && s.callers[step.t].reason != Direct
  }

  /** How often the engine enters the driver's Close in a run. */
  ghost function EngineCloses(w: World, s: State, steps: seq<Step>): nat
    decreases steps
  {
    if steps == [] || !Enabled(s, steps[0]) then 0
    else (if IsEngineClose(s, steps[0]) then 1 else 0) + EngineCloses(w, Do(w, s, steps[0]), steps[1..])
  }

  predicate IsInsideClose(pc: Caller) {
    match pc
    case Disconnecting(reason) => reason != Direct
    case AwaitingConsumers(reason) => reason != Direct
    case Returned(outcome) => outcome.ClosedBy? && outcome.reason != Direct
    case _ => false
  }

  /** The engine has entered the driver's Close, and may have left it again. */
  ghost predicate EngineHasClosed(s: State) {
    exists t :: 0 <= t < |s.callers| && IsInsideClose(s.callers[t])
  }

  lemma EngineCloseStep(w: World, s: State, step: Step)
    requires Reachable(w, s) && Enabled(s, step)
    ensures IsEngineClose(s, step) ==> !EngineHasClosed(s)
    ensures EngineHasClosed(s) || IsEngineClose(s, step) ==> EngineHasClosed(Do(w, s, step))
  {
    InvReachable(w, s);
    if t :| 0 <= t < |s.callers| && IsInsideClose(s.callers[t]) {
      assert IsInsideClose(Do(w, s, step).callers[t]);
    }
    if IsEngineClose(s, step) {
      assert IsInsideClose(Do(w, s, step).callers[step.t]);
    }
  }

  /** Over every run, the engine enters the driver's Close at most once. */
  lemma {:induction false} EngineEntersCloseOnce(w: World, s: State, steps: seq<Step>, u: State)
    requires Reachable(w, s) && Run(w, s, steps, u)
    ensures EngineCloses(w, s, steps) <= if EngineHasClosed(s) then 0 else 1
    decreases steps
  {
    if steps != [] {
      EngineCloseStep(w, s, steps[0]);
      ReachableStep(w, s, steps[0]);
      EngineEntersCloseOnce(w, Do(w, s, steps[0]), steps[1..], u);
    }
  }

  // The driver's close protocol

  /** WaitGroup.Add never runs while Close waits: consumers are added only to an open driver,
      and Close waits, or has returned, only on a closed one. */
  lemma NoConsumerAddedAfterClose(w: World, s: State, step: Step)
    requires Reachable(w, s) && Enabled(s, step) && s.flags.closed
    ensures |Do(w, s, step).net.consumers| == |s.net.consumers|
    ensures Do(w, s, step).net.consumerCount <= s.net.consumerCount
    ensures Do(w, s, step).flags.closed
  {
    InvReachable(w, s);
    match step
    case Consume(i, action) => ConsumerKeepsCount(s.net, s.flags.closed, i, action);
    case Call(t, action) =>
      CallKeepsInv(s, t, action);
      CallIsCloseMove(s.flags, t, s.callers[t], action, s.eng.wg, s.net.consumerCount);
    case _ =>
  }

  lemma ClosedStep(w: World, s: State, step: Step)
    requires Reachable(w, s) && s.flags.closed && s.net.consumerCount == 0 && Enabled(s, step)
    ensures var s' := Do(w, s, step);
            && s'.flags.closed && s'.net.consumerCount == 0 && s'.net.consumers == s.net.consumers
            && (s'.net.msgChan == s.net.msgChan || (s.net.msgChan != [] && s'.net.msgChan == s.net.msgChan[1..]))
  {
    InvReachable(w, s);
    NoConsumerAddedAfterClose(w, s, step);
    SumZero(AliveWeight, s.net.consumers);
    if step.Call? {
      CallKeepsInv(s, step.t, step.call);
    }
  }

  /** xs is what is left of ys after taking some elements from its front. */
  predicate IsTail(xs: seq<Packet>, ys: seq<Packet>) {
    |xs| <= |ys| && xs == ys[|ys| - |xs|..]
  }

  /** After Close returns, to whichever caller, nothing is ever sent to the message channel:
      from then on it only loses messages from its front. */
  lemma CloseIsFinal(w: World, s: State, t: nat, steps: seq<Step>, u: State)
    requires Reachable(w, s) && t < |s.callers| && HasClosed(s.callers[t]) && Run(w, s, steps, u)
    ensures u.net.consumers == s.net.consumers
    ensures IsTail(u.net.msgChan, s.net.msgChan)
  {
    InvReachable(w, s);
    var inv := (v: State) =>
      && v.flags.closed && v.net.consumerCount == 0 && v.net.consumers == s.net.consumers
      && IsTail(v.net.msgChan, s.net.msgChan);
    forall v, step | Reachable(w, v) && inv(v) && Enabled(v, step) ensures inv(Do(w, v, step)) {
      ClosedStep(w, v, step);
    }
    KeptOnRun(w, inv, s, steps, u);
  }

  /** The connection of a closed driver is up only until its closer has cut it, and nobody returns
      from Close while it holds the lock. */
  ghost predicate LinkFits(callers: seq<Caller>, f: Flags, link: bool) {
    && (f.closed && link ==> f.writer.Some? && f.writer.value < |callers| && callers[f.writer.value].Disconnecting?)
    && forall t :: 0 <= t < |callers| && HasClosed(callers[t]) ==> f.closed && f.writer == None
  }

  lemma CallKeepsLinkFits(s: State, t: nat, action: CallerAction)
    requires Inv(s) && LinkFits(s.callers, s.flags, s.net.link) && Enabled(s, Call(t, action))
    ensures LinkFits(s.callers[t := CallerPc(s.flags, s.callers[t], action)], CallerFlags(s.flags, t, s.callers[t], action),
                     ApplyToNet(s.net, CallerEffect(s.flags, s.callers[t], action)).link)
  {
    CallIsCloseMove(s.flags, t, s.callers[t], action, s.eng.wg, s.net.consumerCount);
  }

  lemma StepKeepsLinkFits(w: World, s: State, step: Step)
    requires Inv(s) && LinkFits(s.callers, s.flags, s.net.link) && Enabled(s, step)
    ensures var s' := Do(w, s, step); LinkFits(s'.callers, s'.flags, s'.net.link)
  {
    if step.Call? {
      CallKeepsLinkFits(s, step.t, step.call);
    } else {
      assert Do(w, s, step).flags == s.flags && (Do(w, s, step).net.link ==> s.net.link);
    }
  }

  lemma LinkFitsReachable(w: World, s: State)
    requires Reachable(w, s)
    ensures LinkFits(s.callers, s.flags, s.net.link)
  {
    var inv := (u: State) => LinkFits(u.callers, u.flags, u.net.link);
    forall u, step | Reachable(w, u) && inv(u) && Enabled(u, step) ensures inv(Do(w, u, step)) {
      InvReachable(w, u);
      StepKeepsLinkFits(w, u, step);
    }
    KeptFromStart(w, inv, s);
  }

  /** Close returns only after the connection has been cut, so the broker delivers nothing any more. */
  lemma CloseCutsTheLink(w: World, s: State, t: nat)
    requires Reachable(w, s) && t < |s.callers| && HasClosed(s.callers[t])
    ensures !s.net.link
    ensures forall i, k :: !Enabled(s, Consume(i, Deliver(k)))
  {
    LinkFitsReachable(w, s);
  }

  /** How many steps a consumer of a closed driver can still take. */
  function ClosingSteps(c: Consumer): nat {
    if c.alive then 1 + 2 * |c.buffer| + (if c.held.Some? then 1 else 0) else 0
  }

  /** While Close holds the write lock, it can go on to cut the connection, every live consumer can
      exit without any lock, and Close can return when there is none. */
  lemma CloseCannotBlock(w: World, s: State, t: nat)
    requires Reachable(w, s) && t < |s.callers| && HoldsWriter(s.callers[t])
    ensures s.flags.writer == Some(t)
    ensures s.callers[t].Disconnecting? ==> Enabled(s, Call(t, Disconnect))
    ensures forall i :: 0 <= i < |s.net.consumers| && s.net.consumers[i].alive ==> Enabled(s, Consume(i, Quit))
    ensures s.callers[t].AwaitingConsumers? && (forall i :: 0 <= i < |s.net.consumers| ==> !s.net.consumers[i].alive) ==>
              Enabled(s, Call(t, LeaveClose))
  {
    InvReachable(w, s);
    SumZero(AliveWeight, s.net.consumers);
  }

  lemma CallWaitsForWriter(f: Flags, t: nat, pc: Caller, action: CallerAction)
    requires CallerReady(f, pc, action) && f.writer.Some?
    ensures !pc.StartLocked? && !pc.ReloadLocked? && !CallerEffect(f, pc, action).AddConsumer?
    ensures var f' := CallerFlags(f, t, pc, action);
            f'.closed == f.closed && f'.writer == if action.LeaveClose? then None else f.writer
  {
  }

  lemma EffectKeepsAttempts(s: State, effect: Effect)
    requires !effect.AddConsumer?
    ensures ApplyToEngine(s.eng, effect).attempts == s.eng.attempts
    ensures ApplyToNet(s.net, effect).consumerCount == s.net.consumerCount
  {
  }

  ghost predicate ReadyStays(e: EngineState, e': EngineState) {
    && |e.attempts| <= |e'.attempts|
    && forall k :: 0 <= k < |e.attempts| && e.attempts[k].phase == Ready ==> e'.attempts[k].phase == Ready
  }

  lemma WorkWaitsForWriter(e: EngineState, f: Flags, k: nat, action: WorkerAction)
    requires WorkerEnabled(e, f, k, action) && f.writer.Some?
    ensures ReadyStays(e, WorkerDo(e, f, k, action))
  {
  }

  /** Nothing that needs the driver's lock happens from s to s'. */
  ghost predicate KeptOut(s: State, s': State) {
    && ReadyStays(s.eng, s'.eng)
    && |s.callers| <= |s'.callers|
    && (forall u :: 0 <= u < |s.callers| && (s.callers[u].StartLocked? || s.callers[u].ReloadLocked?) ==>
          s'.callers[u] == s.callers[u])
    && s'.net.consumerCount <= s.net.consumerCount && s'.flags.closed == s.flags.closed
  }

  lemma CallKeptOut(w: World, s: State, t: nat, action: CallerAction)
    requires Inv(s) && Enabled(s, Call(t, action)) && s.flags.writer.Some?
    ensures var s' := Do(w, s, Call(t, action));
            KeptOut(s, s') && (s'.flags.writer != s.flags.writer ==>
                                 s'.flags.writer == None && action.LeaveClose? && t == s.flags.writer.value)
  {
    CallWaitsForWriter(s.flags, t, s.callers[t], action);
    EffectKeepsAttempts(s, CallerEffect(s.flags, s.callers[t], action));
  }

  /** The driver's write lock keeps everybody else out: while Close holds it, responses that are ready
      stay unpublished, no topology is declared and no consumer is added, until its holder returns. */
  lemma WriterExcludes(w: World, s: State, step: Step)
    requires Reachable(w, s) && Enabled(s, step) && s.flags.writer.Some?
    ensures var s', t := Do(w, s, step), s.flags.writer.value;
            KeptOut(s, s') && (s'.flags.writer != s.flags.writer ==> s'.flags.writer == None && step == Call(t, LeaveClose))
  {
    InvReachable(w, s);
    match step
    case Work(k, action) => WorkWaitsForWriter(s.eng, s.flags, k, action);
    case Call(t, action) => CallKeptOut(w, s, t, action);
    case _ =>
  }

  /** ... together, when the connection still delivers what the broker has queued. */
  function ClosingRank(n: Net): nat {
    Sum(ClosingSteps, n.consumers) + if n.link then 3 * |n.backlog| else 0
  }

  lemma ConsumeLowersRank(n: Net, closed: bool, i: nat, action: ConsumerAction)
    requires ConsumerEnabled(n, closed, i, action)
    ensures ClosingRank(ConsumerDo(n, closed, i, action)) < ClosingRank(n)
  {
    SumUpdate(ClosingSteps, n.consumers, i, ConsumerDo(n, closed, i, action).consumers[i]);
  }

  /** Consumers of a closed driver take finitely many steps: each one of them decreases a measure
      that no other goroutine increases. Only a message that arrives at the broker before the
      connection is cut raises it. */
  lemma ClosingDecreases(w: World, s: State, step: Step)
    requires Reachable(w, s) && s.flags.closed && Enabled(s, step)
    ensures var before, after := ClosingRank(s.net), ClosingRank(Do(w, s, step).net);
            && (step.Consume? ==> after < before)
            && (step.Arrive? ==> after == before + if s.net.link then 3 else 0)
            && (!step.Consume? && !step.Arrive? ==> after <= before)
  {
    InvReachable(w, s);
    match step
    case Consume(i, action) => ConsumeLowersRank(s.net, s.flags.closed, i, action);
    case Call(t, action) => CallKeepsInv(s, t, action);
    case _ =>
  }
}
