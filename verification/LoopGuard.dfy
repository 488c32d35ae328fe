/** The loop guard: the engine never reacts to its own output, wherever the broker routes it and
    whatever headers a rule configures, so publications are bounded by the external messages. */
module LoopGuard {
  import opened Basics
  import opened Config
  import opened Pipeline
  import Order
  import Provenance
  import Shutdown

  /** A packet that stems from the engine carries the origin header. */
  predicate Stamped(p: Packet) {
    p.source.Own? ==> HasOrigin(p.msg)
  }

  predicate AllStamped(ps: seq<Packet>) {
    forall p :: p in ps ==> Stamped(p)
  }

  predicate HasPacket(loop: Loop) {
    loop.Taken? || loop.Logged? || loop.Testing? || loop.Matched?
  }

  ghost predicate Inv(n: Net, e: EngineState) {
    && AllStamped(n.backlog) && AllStamped(n.msgChan)
    && (forall i :: 0 <= i < |n.consumers| ==> AllStamped(Order.InFlight(n.consumers[i])))
    && (HasPacket(e.loop) ==> Stamped(e.loop.packet))
    && (forall k :: 0 <= k < |e.attempts| ==> Stamped(e.attempts[k].packet))
    && (forall h :: 0 <= h < |e.history| && e.history[h].ReceivedEntry? ==> Stamped(e.history[h].packet))
  }

  /** The stamp overrides whatever the rule configures for the origin header, and is added to the
      other headers. */
  lemma CopiesAreStamped(queues: seq<string>, rule: Rule, body: string, k: nat)
    ensures AllStamped(Copies(queues, rule, body, k))
    ensures forall p :: p in Copies(queues, rule, body, k) ==> p.source == Own(k) && p.msg.queue in queues
    ensures forall p :: p in Copies(queues, rule, body, k) ==>
              && p.msg.headers.Keys == rule.response.headers.Keys + {"x-chitchat-origin"}
              && p.msg.headers["x-chitchat-origin"] == Printed(rule.name)
              && forall name :: name in rule.response.headers && name != "x-chitchat-origin" ==>
                   p.msg.headers[name] == rule.response.headers[name]
  {
    assert ORIGIN_HEADER == "x-chitchat-origin";
    forall p | p in Copies(queues, rule, body, k)
      ensures p.source == Own(k) && p.msg.queue in queues && p.msg.headers == StampedHeaders(rule)
    {
    }
  }

  lemma ConsumeKeepsStamps(n: Net, e: EngineState, closed: bool, i: nat, action: ConsumerAction)
    requires Inv(n, e) && ConsumerEnabled(n, closed, i, action)
    ensures Inv(ConsumerDo(n, closed, i, action), e)
  {
    var n' := ConsumerDo(n, closed, i, action);
    var c, c' := n.consumers[i], n'.consumers[i];
    match action
    case Deliver(k) =>
      assert n.backlog[k] in n.backlog;
      assert forall p :: p in Order.InFlight(c') ==> p in Order.InFlight(c) || p == n.backlog[k];
    case Pick =>
      assert Order.InFlight(c') == Order.InFlight(c);
    case Send =>
      assert Order.InFlight(c) == [c.held.value] + Order.InFlight(c');
      assert c.held.value in Order.InFlight(c);
      assert forall p :: p in Order.InFlight(c') ==> p in Order.InFlight(c);
    case Quit =>
  }

  lemma ProcessKeepsStamps(w: World, n: Net, e: EngineState, cancelled: bool, action: LoopAction)
    requires Inv(n, e) && LoopEnabled(e, n.msgChan, cancelled, action)
    ensures Inv(if action == Receive then n.(msgChan := n.msgChan[1..]) else n, LoopDo(w, e, n.msgChan, cancelled, action))
  {
    if action == Receive {
      assert n.msgChan[0] in n.msgChan;
    }
  }

  lemma InvStep(w: World, s: State, step: Step)
    requires Inv(s.net, s.eng) && Enabled(s, step)
    ensures Inv(Do(w, s, step).net, Do(w, s, step).eng)
  {
    match step
    case Consume(i, action) => ConsumeKeepsStamps(s.net, s.eng, s.flags.closed, i, action);
    case Process(action) => ProcessKeepsStamps(w, s.net, s.eng, s.flags.cancelled, action);
    case Work(k, action) =>
      Provenance.WorkerIsMove(s.eng, s.flags, k, action);
      if action.Publish? {
        var rule := RuleOf(s.eng, s.eng.attempts[k]);
        CopiesAreStamped(w.route(rule.response.exchange, rule.response.routingKey), rule, s.eng.attempts[k].body, k);
      }
    case _ =>
  }

  lemma InvReachable(w: World, s: State)
    requires Reachable(w, s)
    ensures Inv(s.net, s.eng)
  {
    var inv := (u: State) => Inv(u.net, u.eng);
    forall u, step | inv(u) && Enabled(u, step) ensures inv(Do(w, u, step)) {
      InvStep(w, u, step);
    }
    KeptFromStart(w, inv, s);
  }

  /** In no reachable state, over any broker topology, has the engine matched a rule against a
      message that it published itself. */
  lemma NeverReactsToOwnOutput(w: World, s: State, k: nat)
    requires Reachable(w, s) && k < |s.eng.attempts|
    ensures s.eng.attempts[k].packet.source == External
  {
    InvReachable(w, s);
    Provenance.InvReachable(w, s);
  }

  // The bound on publications

  /** An external message that was recorded and passed the guard. */
  function HandledWeight(entry: Entry): nat {
    if entry.ReceivedEntry? && entry.packet.source == External && !HasOrigin(entry.packet.msg) then 1 else 0
  }

  function PublishedWeight(a: Attempt): nat {
    if Provenance.IsPublished(a) then 1 else 0
  }

  /** How many more attempts the message being handled may lead to, under at most r rules. */
  function Slack(loop: Loop, r: nat): int {
    match loop
    case Logged(_, _) => r
    case Testing(_, _, _, i) => r - i
    case Matched(_, _, _, i) => r - i
    case _ => 0
  }

  ghost predicate RulesBounded(e: EngineState, r: nat) {
    forall g :: 0 <= g < |e.generations| ==> |e.generations[g]| <= r
  }

  ghost predicate AttemptsBounded(e: EngineState, r: nat) {
    RulesBounded(e, r) ==> |e.attempts| + Slack(e.loop, r) <= r * Sum(HandledWeight, e.history)
  }

  lemma LoggingKeepsBound(w: World, e: EngineState, msgChan: seq<Packet>, cancelled: bool, r: nat)
    requires AttemptsBounded(e, r) && e.loop.Taken? && Stamped(e.loop.packet)
    ensures AttemptsBounded(LoopDo(w, e, msgChan, cancelled, LogReceived), r)
  {
    SumSnoc(HandledWeight, e.history, ReceivedEntry(e.loop.packet));
    var h := Sum(HandledWeight, e.history);
    assert r * (h + 1) == r * h + r;
  }

  lemma LoopKeepsBound(w: World, e: EngineState, msgChan: seq<Packet>, cancelled: bool, action: LoopAction, r: nat)
    requires Provenance.Indexed(e) && AttemptsBounded(e, r) && LoopEnabled(e, msgChan, cancelled, action)
    requires HasPacket(e.loop) ==> Stamped(e.loop.packet)
    ensures AttemptsBounded(LoopDo(w, e, msgChan, cancelled, action), r)
  {
    if action.LogReceived? {
      LoggingKeepsBound(w, e, msgChan, cancelled, r);
    }
  }

  lemma WorkerKeepsBound(e: EngineState, f: Flags, k: nat, action: WorkerAction, r: nat)
    requires AttemptsBounded(e, r) && WorkerEnabled(e, f, k, action)
    ensures AttemptsBounded(WorkerDo(e, f, k, action), r)
  {
    Provenance.WorkerIsMove(e, f, k, action);
    var e' := WorkerDo(e, f, k, action);
    if action.LogPublished? {
      SumSnoc(HandledWeight, e.history, e'.history[|e.history|]);
    }
  }

  lemma EffectKeepsBound(e: EngineState, effect: Effect, r: nat)
    requires AttemptsBounded(e, r) && (effect.StartLoop? ==> e.loop.NotStarted?)
    ensures AttemptsBounded(ApplyToEngine(e, effect), r)
  {
    if effect.LoadRules? && RulesBounded(ApplyToEngine(e, effect), r) {
      assert forall g :: 0 <= g < |e.generations| ==>
        e.generations[g] == ApplyToEngine(e, effect).generations[g];
    }
  }

  lemma BoundStep(w: World, s: State, step: Step, r: nat)
    requires Reachable(w, s) && AttemptsBounded(s.eng, r) && Enabled(s, step)
    ensures AttemptsBounded(Do(w, s, step).eng, r)
  {
    InvReachable(w, s);
    match step
    case Process(action) =>
      Provenance.InvReachable(w, s);
      LoopKeepsBound(w, s.eng, s.net.msgChan, s.flags.cancelled, action, r);
    case Work(k, action) => WorkerKeepsBound(s.eng, s.flags, k, action, r);
    case Call(t, action) =>
      Shutdown.InvReachable(w, s);
      Shutdown.CallKeepsInv(s, t, action);
      EffectKeepsBound(s.eng, CallerEffect(s.flags, s.callers[t], action), r);
    case _ =>
  }

  lemma {:induction false} PublishedAtMostAll(xs: seq<Attempt>)
    ensures Sum(PublishedWeight, xs) <= |xs|
  {
    if xs != [] {
      PublishedAtMostAll(xs[..|xs| - 1]);
    }
  }

  /** When every loaded rule set has at most r rules, the publications never exceed r for each
      external message that was handled, even when the broker routes every publication back to
      the trigger queues. */
  lemma PublicationsAreBounded(w: World, s: State, r: nat)
    requires Reachable(w, s) && RulesBounded(s.eng, r)
    ensures Sum(PublishedWeight, s.eng.attempts) <= r * Sum(HandledWeight, s.eng.history)
  {
    var inv := (u: State) => AttemptsBounded(u.eng, r);
    forall u, step | Reachable(w, u) && inv(u) && Enabled(u, step) ensures inv(Do(w, u, step)) {
      BoundStep(w, u, step, r);
    }
    KeptFromStart(w, inv, s);
    PublishedAtMostAll(s.eng.attempts);
    Provenance.InvReachable(w, s);
    if s.eng.loop.Testing? || s.eng.loop.Matched? {
      assert |s.eng.generations[s.eng.loop.generation]| <= r;
    }
  }
}
