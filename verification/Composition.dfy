/** The running system on a broker with the declared topology: a configuration without loop
    warnings never gets one of its own responses back on a trigger queue. After reloads this takes
    the analysis of all configurations together, since the broker keeps the bindings of the earlier
    ones; the analysis of each of them for itself can miss a loop. */
module Composition {
  import opened Basics
  import opened Config
  import opened Pipeline
  import Feedback
  import Responses
  import Validation

  /** The world routes as broker b does. */
  ghost predicate RoutesAs(w: World, b: Feedback.Broker) {
    forall exchange, key, q :: q in w.route(exchange, key) <==> Feedback.Delivers(b, exchange, key, q)
  }

  /** The configurations taken together: what is declared at the broker when the engine has run them
      one after the other, with all their rules. */
  function Together(cfgs: seq<Config>): Config {
    if cfgs == [] then Config([], [], [], [])
    else
      var before, last := Together(cfgs[..|cfgs| - 1]), cfgs[|cfgs| - 1];
      Config(before.exchanges + last.exchanges, before.queues + last.queues,
             before.spyQueues + last.spyQueues, before.rules + last.rules)
  }

  lemma {:induction false} RulesAreTogether(cfgs: seq<Config>, c: nat, j: nat) returns (i: nat)
    requires c < |cfgs| && j < |cfgs[c].rules|
    ensures i < |Together(cfgs).rules| && Together(cfgs).rules[i] == cfgs[c].rules[j]
  {
    var before := cfgs[..|cfgs| - 1];
    if c == |cfgs| - 1 {
      i := |Together(before).rules| + j;
    } else {
      i := RulesAreTogether(before, c, j);
    }
  }

  /** Responses go to the default exchange or to declared direct, topic or fanout exchanges. */
  ghost predicate HasKnownTargets(cfg: Config, b: Feedback.Broker) {
    forall i :: 0 <= i < |cfg.rules| ==>
      var ex := cfg.rules[i].response.exchange;
      ex == "" || (Feedback.IsDeclaredExchange(cfg.exchanges, ex) && ex in b.kinds && b.kinds[ex] != "headers")
  }

  lemma UnwarnedReachesNoTrigger(b: Feedback.Broker, cfgs: seq<Config>, home: nat, j: nat, q: string, c: nat)
    requires forall c :: 0 <= c < |cfgs| ==> Validation.Valid(cfgs[c])
    requires Feedback.IsDeclared(Together(cfgs), b) && HasKnownTargets(Together(cfgs), b)
    requires forall warning :: Feedback.Warranted(Together(cfgs), warning) ==> !Feedback.IsLoop(warning)
    requires home < |cfgs| && j < |cfgs[home].rules| && Feedback.DeliversResponse(cfgs[home], b, j, q) && c < |cfgs|
    ensures !Feedback.IsTriggerQueue(cfgs[c], q)
  {
    if Feedback.IsTriggerQueue(cfgs[c], q) {
      var all := Together(cfgs);
      var i := RulesAreTogether(cfgs, home, j);
      Feedback.ValidTriggersAreNamed(cfgs[c], q);
      var t :| 0 <= t < |cfgs[c].rules| && cfgs[c].rules[t].trigger.queue == q;
      var k := RulesAreTogether(cfgs, c, t);
      assert all.rules[k].trigger.queue == q;
      Feedback.AnalysisIsExact(all, b, i, q);
    }
  }

  /** An own message at the broker came through the response of the rule that published it. */
  lemma CopyIsDelivered(w: World, b: Feedback.Broker, cfg: Config, s: State, p: Packet)
    requires Reachable(w, s) && RoutesAs(w, b) && p in s.net.arrived && p.source.Own?
    requires forall k :: k == p.source.attempt && k < |s.eng.attempts| && s.eng.attempts[k].generation < |s.eng.generations| ==>
               s.eng.generations[s.eng.attempts[k].generation] == cfg.rules
    ensures var k := p.source.attempt;
            && k < |s.eng.attempts| && s.eng.attempts[k].rule < |cfg.rules|
            && Feedback.DeliversResponse(cfg, b, s.eng.attempts[k].rule, p.msg.queue)
  {
    Responses.CopiesCarryTheResponse(w, s, p);
  }

  /** When the engine runs valid configurations, one or several after reloads, whose responses go to
      the default exchange or to declared direct, topic or fanout exchanges, on a broker with exactly
      their declared topologies, and the analysis of all of them taken together gives no loop warning,
      then in no reachable state has a response arrived on a trigger queue of any of them. */
  lemma NoWarningMeansNoFeedback(w: World, b: Feedback.Broker, cfgs: seq<Config>, s: State, p: Packet)
    requires forall c :: 0 <= c < |cfgs| ==> Validation.Valid(cfgs[c])
    requires Feedback.IsDeclared(Together(cfgs), b) && HasKnownTargets(Together(cfgs), b) && RoutesAs(w, b)
    requires forall warning :: Feedback.Warranted(Together(cfgs), warning) ==> !Feedback.IsLoop(warning)
    requires Reachable(w, s)
    requires forall g :: 0 <= g < |s.eng.generations| ==>
      exists c :: 0 <= c < |cfgs| && s.eng.generations[g] == cfgs[c].rules
    requires p in s.net.arrived && p.source.Own?
    ensures forall c :: 0 <= c < |cfgs| ==> !Feedback.IsTriggerQueue(cfgs[c], p.msg.queue)
  {
    Responses.CopiesCarryTheResponse(w, s, p);
    var a, q := s.eng.attempts[p.source.attempt], p.msg.queue;
    var home :| 0 <= home < |cfgs| && s.eng.generations[a.generation] == cfgs[home].rules;
    CopyIsDelivered(w, b, cfgs[home], s, p);
    forall c | 0 <= c < |cfgs| ensures !Feedback.IsTriggerQueue(cfgs[c], q) {
      UnwarnedReachesNoTrigger(b, cfgs, home, a.rule, q, c);
    }
  }

  const BINDS := Config(
    [ExchangeDeclaration("x", "direct")], [QueueDeclaration("b", [QueueBinding("x", "k")])], [],
    [Rule("r", Trigger("c", "", []), MockResponse("", "out", 0, map[], Null))])

  const RESPONDS := Config(
    [ExchangeDeclaration("x", "direct")], [QueueDeclaration("b", [])], [],
    [Rule("r", Trigger("b", "", []), MockResponse("x", "k", 0, map[], Null))])

  lemma TogetherTwo(first: Config, second: Config)
    ensures var both := Together([first, second]);
            && both.exchanges == first.exchanges + second.exchanges && both.queues == first.queues + second.queues
            && both.rules == first.rules + second.rules
  {
    assert [first, second][..1] == [first] && [first][..0] == [];
    assert Together([first]).exchanges == first.exchanges && Together([first]).queues == first.queues;
    assert Together([first]).rules == first.rules;
  }

  lemma NeitherWarns(warning: Feedback.Warning)
    requires Feedback.IsLoop(warning)
    ensures !Feedback.Warranted(BINDS, warning) && !Feedback.Warranted(RESPONDS, warning)
  {
    assert BINDS.rules[0].trigger.queue == "c" && RESPONDS.queues[0].bindings == [];
  }

  lemma BothAreValid()
    ensures Validation.Valid(BINDS) && Validation.Valid(RESPONDS)
  {
    assert !Validation.IsSpace("r"[0]);
    Validation.SmallIsValid(BINDS);
    Validation.SmallIsValid(RESPONDS);
  }

  /** The topology of both together, declared on an empty broker. */
  lemma BothAreDeclared() returns (b: Feedback.Broker)
    ensures Feedback.IsDeclared(Together([BINDS, RESPONDS]), b)
  {
    var both, binding := Together([BINDS, RESPONDS]), Feedback.Binding("x", "k", "b");
    TogetherTwo(BINDS, RESPONDS);
    b := Feedback.Broker(map["x" := "direct"], {"b"}, {binding});
    assert both.queues[0] == BINDS.queues[0] && both.queues[1] == RESPONDS.queues[0];
    assert Feedback.HasBinding(both.queues[0], binding) && both.queues[0].name == "b";
  }

  lemma TogetherTheyLoop(b: Feedback.Broker)
    requires Feedback.IsDeclared(Together([BINDS, RESPONDS]), b)
    ensures Feedback.IsTriggerQueue(RESPONDS, "b") && Feedback.DeliversResponse(RESPONDS, b, 0, "b")
    ensures |Together([BINDS, RESPONDS]).rules| == 2 && Feedback.LoopWarned(Together([BINDS, RESPONDS]), 1, "b")
  {
    var both := Together([BINDS, RESPONDS]);
    TogetherTwo(BINDS, RESPONDS);
    assert Feedback.HasBinding(both.queues[0], Feedback.Binding("x", "k", "b")) && both.queues[0].name == "b";
    assert both.exchanges[0].name == "x" && both.exchanges[0] in both.exchanges;
    assert RESPONDS.rules[0].trigger.queue == "b" && both.rules[1] == RESPONDS.rules[0];
    Feedback.AnalysisIsExact(both, b, 1, "b");
  }

  /** Each configuration for itself is not enough: after a reload the broker still has the bindings of
      the earlier one, and through them a response reaches its own trigger queue, which neither
      analysis warns of. The analysis of both together does. */
  lemma EarlierBindingsLoop() returns (b: Feedback.Broker)
    ensures Validation.Valid(BINDS) && Validation.Valid(RESPONDS)
    ensures forall warning :: Feedback.IsLoop(warning) ==>
              !Feedback.Warranted(BINDS, warning) && !Feedback.Warranted(RESPONDS, warning)
    ensures Feedback.IsDeclared(Together([BINDS, RESPONDS]), b)
    ensures Feedback.IsTriggerQueue(RESPONDS, "b") && Feedback.DeliversResponse(RESPONDS, b, 0, "b")
    ensures |Together([BINDS, RESPONDS]).rules| == 2 && Feedback.LoopWarned(Together([BINDS, RESPONDS]), 1, "b")
  {
    BothAreValid();
    forall warning | Feedback.IsLoop(warning)
      ensures !Feedback.Warranted(BINDS, warning) && !Feedback.Warranted(RESPONDS, warning)
    {
      NeitherWarns(warning);
    }
    b := BothAreDeclared();
    TogetherTheyLoop(b);
  }
}
