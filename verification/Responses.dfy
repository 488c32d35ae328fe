/** What the broker gets: every copy of a response, and every published entry of the spy, carries what
    its rule configures and its attempt has rendered, and each publication is routed once. */
module Responses {
  import opened Basics
  import opened Config
  import opened Pipeline
  import Provenance
  import Shutdown

  /** Attempts keep their rule and body, and rules stay where they are. */
  lemma EngineKeepsRules(w: World, s: State, step: Step, k: nat)
    requires Reachable(w, s) && Enabled(s, step) && k < |s.eng.attempts|
    ensures var e, e' := s.eng, Do(w, s, step).eng;
            && k < |e'.attempts|
            && InRange(e, e.attempts[k].generation, e.attempts[k].rule)
            && InRange(e', e'.attempts[k].generation, e'.attempts[k].rule)
            && RuleOf(e', e'.attempts[k]) == RuleOf(e, e.attempts[k]) && e'.attempts[k].body == e.attempts[k].body
  {
    HasRule(w, s, k);
    if step.Work? {
      Provenance.WorkerIsMove(s.eng, s.flags, step.k, step.worker);
    }
    ReachableStep(w, s, step);
    HasRule(w, Do(w, s, step), k);
  }

  lemma HasRule(w: World, s: State, k: nat)
    requires Reachable(w, s) && k < |s.eng.attempts|
    ensures InRange(s.eng, s.eng.attempts[k].generation, s.eng.attempts[k].rule)
  {
    Provenance.InvReachable(w, s);
  }

  /** p is one of the copies that the broker makes of the response of attempt p.source.attempt. */
  ghost predicate IsCopy(w: World, e: EngineState, p: Packet)
    requires p.source.Own?
  {
    var k := p.source.attempt;
    && k < |e.attempts| && InRange(e, e.attempts[k].generation, e.attempts[k].rule)
    && var rule := RuleOf(e, e.attempts[k]);
       p in Copies(w.route(rule.response.exchange, rule.response.routingKey), rule, e.attempts[k].body, k)
  }

  ghost predicate AllCopies(w: World, arrived: seq<Packet>, e: EngineState) {
    forall p :: p in arrived && p.source.Own? ==> IsCopy(w, e, p)
  }

  lemma CopyStep(w: World, s: State, step: Step)
    requires Reachable(w, s) && AllCopies(w, s.net.arrived, s.eng) && Enabled(s, step)
    ensures AllCopies(w, Do(w, s, step).net.arrived, Do(w, s, step).eng)
  {
    var s' := Do(w, s, step);
    forall p | p in s'.net.arrived && p.source.Own? ensures IsCopy(w, s'.eng, p) {
      if p in s.net.arrived {
        EngineKeepsRules(w, s, step, p.source.attempt);
      } else {
        assert step.Work?;
        EngineKeepsRules(w, s, step, step.k);
      }
    }
  }

  lemma CopiesReachable(w: World, s: State)
    requires Reachable(w, s)
    ensures AllCopies(w, s.net.arrived, s.eng)
  {
    var inv := (u: State) => AllCopies(w, u.net.arrived, u.eng);
    forall u, step | Reachable(w, u) && inv(u) && Enabled(u, step) ensures inv(Do(w, u, step)) {
      CopyStep(w, u, step);
    }
    KeptFromStart(w, inv, s);
  }

  /** Every message of the engine's own that has arrived at the broker is on a queue that the rule's
      exchange and routing key route to, and has the rule's routing key and headers, the origin header
      with the rule's name on top of them, and the body that was rendered. */
  lemma CopiesCarryTheResponse(w: World, s: State, p: Packet)
    requires Reachable(w, s) && p in s.net.arrived && p.source.Own?
    ensures var k, e := p.source.attempt, s.eng;
            && k < |e.attempts| && InRange(e, e.attempts[k].generation, e.attempts[k].rule)
            && var rule, m := RuleOf(e, e.attempts[k]), p.msg;
               && m.queue in w.route(rule.response.exchange, rule.response.routingKey)
               && m.routingKey == rule.response.routingKey && m.body == e.attempts[k].body && m.direction.Received?
               && m.exchange == m.rule == m.messageID == ""
               && m.headers.Keys == rule.response.headers.Keys + {"x-chitchat-origin"}
               && m.headers["x-chitchat-origin"] == Printed(rule.name)
               && forall name :: name in rule.response.headers && name != "x-chitchat-origin" ==>
                    m.headers[name] == rule.response.headers[name]
  {
    CopiesReachable(w, s);
    assert IsCopy(w, s.eng, p);
    var k := p.source.attempt;
    var rule := RuleOf(s.eng, s.eng.attempts[k]);
    CopyMeaning(w.route(rule.response.exchange, rule.response.routingKey), rule, s.eng.attempts[k].body, k, p);
  }

  lemma CopyMeaning(queues: seq<string>, rule: Rule, body: string, k: nat, p: Packet)
    requires p in Copies(queues, rule, body, k)
    ensures p.msg.queue in queues && p.msg.routingKey == rule.response.routingKey && p.msg.body == body
    ensures p.msg.exchange == p.msg.rule == p.msg.messageID == ""
    ensures p.msg.direction.Received? && p.msg.headers == rule.response.headers["x-chitchat-origin" := Printed(rule.name)]
  {
    assert ORIGIN_HEADER == "x-chitchat-origin" && p.msg.headers == StampedHeaders(rule);
  }

  // How many copies

  function FromAttempt(k: nat): Packet -> nat {
    (p: Packet) => if p.source == Own(k) then 1 else 0
  }

  /** What attempt k has sent to the broker's queues. */
  ghost predicate RoutedOnce(w: World, n: Net, e: EngineState, k: nat) {
    Sum(FromAttempt(k), n.arrived) ==
      if k < |e.attempts| && InRange(e, e.attempts[k].generation, e.attempts[k].rule) && Provenance.IsPublished(e.attempts[k])
      then |w.route(RuleOf(e, e.attempts[k]).response.exchange, RuleOf(e, e.attempts[k]).response.routingKey)|
      else 0
  }

  lemma {:induction false} SumCopies(queues: seq<string>, rule: Rule, body: string, j: nat, k: nat)
    ensures Sum(FromAttempt(k), Copies(queues, rule, body, j)) == if j == k then |queues| else 0
  {
    var copies := Copies(queues, rule, body, j);
    if queues != [] {
      var init := queues[..|queues| - 1];
      SumCopies(init, rule, body, j, k);
      assert copies[..|copies| - 1] == Copies(init, rule, body, j);
    }
  }

  lemma PublishRoutesOnce(w: World, s: State, k: nat, j: nat, action: WorkerAction)
    requires Reachable(w, s) && RoutedOnce(w, s.net, s.eng, k) && Enabled(s, Work(j, action))
    ensures RoutedOnce(w, Do(w, s, Work(j, action)).net, Do(w, s, Work(j, action)).eng, k)
  {
    var ps := Enqueued(w, s.eng, s.flags, j, action);
    EngineKeepsRules(w, s, Work(j, action), j);
    if k < |s.eng.attempts| {
      EngineKeepsRules(w, s, Work(j, action), k);
    }
    SumConcat(FromAttempt(k), s.net.arrived, ps);
    if ps != [] {
      var rule := RuleOf(s.eng, s.eng.attempts[j]);
      SumCopies(w.route(rule.response.exchange, rule.response.routingKey), rule, s.eng.attempts[j].body, j, k);
    }
  }

  lemma OtherStepsRouteNothing(w: World, s: State, k: nat, step: Step)
    requires Reachable(w, s) && RoutedOnce(w, s.net, s.eng, k) && Enabled(s, step) && !step.Work?
    ensures RoutedOnce(w, Do(w, s, step).net, Do(w, s, step).eng, k)
  {
    if k < |s.eng.attempts| {
      EngineKeepsRules(w, s, step, k);
    }
    if step.Arrive? {
      SumSnoc(FromAttempt(k), s.net.arrived, Packet(step.msg.(direction := Received), External));
    } else {
      assert Do(w, s, step).net.arrived == s.net.arrived;
    }
  }

  /** The broker gets the copies of an attempt's response once, if its publication was accepted, and
      none otherwise. */
  lemma EveryPublicationIsRoutedOnce(w: World, s: State, k: nat)
    requires Reachable(w, s) && k < |s.eng.attempts|
    ensures InRange(s.eng, s.eng.attempts[k].generation, s.eng.attempts[k].rule)
    ensures var a, response := s.eng.attempts[k], RuleOf(s.eng, s.eng.attempts[k]).response;
            Sum(FromAttempt(k), s.net.arrived) ==
            if a.phase == Sent || a.phase == Recorded then |w.route(response.exchange, response.routingKey)| else 0
  {
    var inv := (u: State) => RoutedOnce(w, u.net, u.eng, k);
    forall u, step | Reachable(w, u) && inv(u) && Enabled(u, step) ensures inv(Do(w, u, step)) {
      if step.Work? {
        PublishRoutesOnce(w, u, k, step.k, step.worker);
      } else {
        OtherStepsRouteNothing(w, u, k, step);
      }
    }
    KeptFromStart(w, inv, s);
    HasRule(w, s, k);
  }

  // Delays

  ghost predicate DelayFits(e: EngineState, f: Flags, k: nat) {
    k < |e.attempts| && InRange(e, e.attempts[k].generation, e.attempts[k].rule) ==>
      var a := e.attempts[k];
      && (a.phase == Delaying || a.phase == Cancelled ==> RuleOf(e, a).response.delayMS > 0)
      && (a.phase == Cancelled ==> f.cancelled)
  }

  lemma DelayStep(w: World, s: State, k: nat, step: Step)
    requires Reachable(w, s) && DelayFits(s.eng, s.flags, k) && Enabled(s, step)
    ensures DelayFits(Do(w, s, step).eng, Do(w, s, step).flags, k)
  {
    if k < |s.eng.attempts| {
      EngineKeepsRules(w, s, step, k);
    }
    if step.Call? {
      Shutdown.CallIsStopMove(s.flags, step.t, s.callers[step.t], step.call);
    }
  }

  /** Only responses with a delay are ever waiting, and only a cancelled engine gives one up. */
  lemma OnlyDelayedAreCancelled(w: World, s: State, k: nat)
    requires Reachable(w, s) && k < |s.eng.attempts|
    ensures InRange(s.eng, s.eng.attempts[k].generation, s.eng.attempts[k].rule)
    ensures var a := s.eng.attempts[k];
            && (a.phase == Delaying || a.phase == Cancelled ==> RuleOf(s.eng, a).response.delayMS > 0)
            && (a.phase == Cancelled ==> s.flags.cancelled)
  {
    var inv := (u: State) => DelayFits(u.eng, u.flags, k);
    forall u, step | Reachable(w, u) && inv(u) && Enabled(u, step) ensures inv(Do(w, u, step)) {
      DelayStep(w, u, k, step);
    }
    KeptFromStart(w, inv, s);
    HasRule(w, s, k);
  }
}
