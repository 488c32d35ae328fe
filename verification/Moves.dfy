/** One step at a time, by the part of the system that takes it, with the fields it changes. Where
    a run has to be exhibited, as in Reordering and Witnesses, it is put together from these steps,
    each from one reachable state to the next; for the steps of the environment, of consumers and of
    the loop it is also kept that the first state leads to the second. */
module Moves {
  import opened Basics
  import opened Config
  import opened Pipeline

  lemma Input(w: World, s: State, msg: Message) returns (t: State)
    requires Reachable(w, s) && msg.direction == Direction.Received
    ensures Reachable(w, t) && LeadsTo(w, s, t) && t == s.(net := Enqueue(s.net, [Packet(msg, External)]))
  {
    t := Do(w, s, Arrive(msg));
    ReachableStep(w, s, Arrive(msg));
    StepLeads(w, s, Arrive(msg));
  }

  lemma Enter(w: World, s: State, pc: Caller) returns (t: State)
    requires Reachable(w, s) && IsEntryPoint(pc)
    ensures Reachable(w, t) && t == s.(callers := s.callers + [pc])
  {
    t := Do(w, s, Invoke(pc));
    ReachableStep(w, s, Invoke(pc));
  }

  lemma Consuming(w: World, s: State, i: nat, action: ConsumerAction) returns (t: State)
    requires Reachable(w, s) && ConsumerEnabled(s.net, s.flags.closed, i, action)
    ensures Reachable(w, t) && LeadsTo(w, s, t) && t == s.(net := ConsumerDo(s.net, s.flags.closed, i, action))
  {
    t := Do(w, s, Consume(i, action));
    ReachableStep(w, s, Consume(i, action));
    StepLeads(w, s, Consume(i, action));
  }

  lemma Looping(w: World, s: State, action: LoopAction) returns (t: State)
    requires Reachable(w, s) && LoopEnabled(s.eng, s.net.msgChan, s.flags.cancelled, action)
    ensures Reachable(w, t) && LeadsTo(w, s, t) && t.flags == s.flags && t.callers == s.callers
    ensures t.eng == LoopDo(w, s.eng, s.net.msgChan, s.flags.cancelled, action)
    ensures t.net == if action == Receive then s.net.(msgChan := s.net.msgChan[1..]) else s.net
  {
    t := Do(w, s, Process(action));
    ReachableStep(w, s, Process(action));
    StepLeads(w, s, Process(action));
  }

  lemma Working(w: World, s: State, k: nat, action: WorkerAction) returns (t: State)
    requires Reachable(w, s) && WorkerEnabled(s.eng, s.flags, k, action)
    ensures Reachable(w, t) && t.flags == s.flags && t.callers == s.callers
    ensures t.eng == WorkerDo(s.eng, s.flags, k, action)
    ensures t.net.consumers == s.net.consumers && t.net.consumerCount == s.net.consumerCount
  {
    t := Do(w, s, Work(k, action));
    ReachableStep(w, s, Work(k, action));
  }

  lemma Calling(w: World, s: State, t: nat, action: CallerAction) returns (u: State)
    requires Reachable(w, s) && t < |s.callers|
    requires CallerEnabled(s.flags, s.eng.wg, s.net.consumerCount, s.callers[t], action)
    ensures Reachable(w, u) && u.flags == CallerFlags(s.flags, t, s.callers[t], action)
    ensures u.callers == s.callers[t := CallerPc(s.flags, s.callers[t], action)]
    ensures u.net == ApplyToNet(s.net, CallerEffect(s.flags, s.callers[t], action))
    ensures u.eng == ApplyToEngine(s.eng, CallerEffect(s.flags, s.callers[t], action))
  {
    u := Do(w, s, Call(t, action));
    ReachableStep(w, s, Call(t, action));
  }
}
