/** The static feedback-loop analysis of Config.Warnings (pkg/config/validate.go), and the routing
    of a broker on which the configuration has been declared (pkg/broker/rabbitmq.go). */
module Feedback {
  import opened Basics
  import opened Config
  import opened Topic
  import Validation

  // The broker, after AMQP 0-9-1, section 3.1.3

  datatype Binding = Binding(exchange: string, key: string, queue: string)

  datatype Broker = Broker(kinds: map<string, string>, queues: set<string>, bindings: set<Binding>)

  /** Whether an exchange of the given type passes a message with routing key `key` on to a
      binding with binding key `bindingKey`. */
  ghost predicate KindRoutes(kind: string, bindingKey: string, key: string) {
    match kind
    case "fanout" => true
    case "direct" => bindingKey == key
    case "topic" => Accepts(Words(bindingKey), Words(key))
    case _ => false
  }

  /** A publication to (exchange, key) reaches queue q. The default exchange routes to the queue
      that the routing key names. */
  ghost predicate Delivers(b: Broker, exchange: string, key: string, q: string) {
    q in b.queues &&
    if exchange == "" then key == q
    else exchange in b.kinds
         && exists k :: Binding(exchange, k, q) in b.bindings && KindRoutes(b.kinds[exchange], k, key)
  }

  function KindOf(ex: ExchangeDeclaration): string {
    if ex.kind == "" then "direct" else ex.kind
  }

  /** The broker has exactly the configuration's queues and bindings, and its exchanges. */
  ghost predicate IsDeclared(cfg: Config, b: Broker) {
    && (forall ex :: ex in cfg.exchanges ==> ex.name in b.kinds && b.kinds[ex.name] == KindOf(ex))
    && (forall q :: q in b.queues <==> exists i :: 0 <= i < |cfg.queues| && cfg.queues[i].name == q)
    && (forall x :: x in b.bindings <==> exists i :: 0 <= i < |cfg.queues| && HasBinding(cfg.queues[i], x))
  }

  predicate HasBinding(q: QueueDeclaration, x: Binding) {
    x.queue == q.name && QueueBinding(x.exchange, x.key) in q.bindings
  }

  /** The exchanges that can be declared beside the existing ones: no two types for one name. */
  ghost predicate Compatible(exchanges: seq<ExchangeDeclaration>, predeclared: map<string, string>) {
    && (forall ex :: ex in exchanges && ex.name in predeclared ==> predeclared[ex.name] == KindOf(ex))
    && (forall x, y :: x in exchanges && y in exchanges && x.name == y.name ==> KindOf(x) == KindOf(y))
  }

  /** What the broker delivers through a declared exchange, by its declared type: an exchange without a
      type is a direct one and looks for the very routing key, a topic exchange for a matching pattern,
      a fanout exchange does not look at the key. */
  lemma DeliveryByType(cfg: Config, b: Broker, ex: ExchangeDeclaration, key: string, q: string)
    requires IsDeclared(cfg, b) && ex in cfg.exchanges && ex.name != ""
    ensures ex.kind == "" || ex.kind == "direct" ==>
              (Delivers(b, ex.name, key, q) <==> q in b.queues && Binding(ex.name, key, q) in b.bindings)
    ensures ex.kind == "topic" ==>
              (Delivers(b, ex.name, key, q) <==>
               q in b.queues && exists k :: Binding(ex.name, k, q) in b.bindings && Accepts(Words(k), Words(key)))
    ensures ex.kind == "fanout" ==>
              (Delivers(b, ex.name, key, q) <==> q in b.queues && exists k :: Binding(ex.name, k, q) in b.bindings)
    ensures q != "" ==> (Delivers(b, "", key, q) <==> q in b.queues && key == q)
  {
  }

  /** The first loop of DeclareTopology; the broker refuses to redeclare an exchange with another type. */
  method DeclareExchanges(exchanges: seq<ExchangeDeclaration>, predeclared: map<string, string>)
    returns (ok: bool, kinds: map<string, string>)
    ensures ok <==> Compatible(exchanges, predeclared)
    ensures ok ==> forall ex :: ex in exchanges ==> ex.name in kinds && kinds[ex.name] == KindOf(ex)
    ensures ok ==> forall ex :: ex in exchanges && ex.kind == "" ==> kinds[ex.name] == "direct"
    ensures ok ==> forall n :: n in kinds <==> n in predeclared || exists ex :: ex in exchanges && ex.name == n
  {
    kinds := predeclared;
    for i := 0 to |exchanges|
      invariant forall n :: n in predeclared ==> n in kinds && kinds[n] == predeclared[n]
      invariant forall j :: 0 <= j < i ==> exchanges[j].name in kinds && kinds[exchanges[j].name] == KindOf(exchanges[j])
      invariant forall n :: n in kinds ==> n in predeclared || exists j :: 0 <= j < i && exchanges[j].name == n
    {
      var ex := exchanges[i];
      if ex.name in kinds && kinds[ex.name] != KindOf(ex) {
        assert ex in exchanges;
        if ex.name !in predeclared {
          var j :| 0 <= j < i && exchanges[j].name == ex.name;
          assert exchanges[j] in exchanges;
        }
        return false, kinds;
      }
      kinds := kinds[ex.name := KindOf(ex)];
    }
    ok := true;
  }

  /** The loop over a queue's bindings; the broker refuses to bind to an exchange that does not exist. */
  method DeclareBindings(q: QueueDeclaration, kinds: map<string, string>) returns (ok: bool, bound: set<Binding>)
    ensures ok <==> forall x :: x in q.bindings ==> x.exchange in kinds
    ensures ok ==> forall x :: x in bound <==> HasBinding(q, x)
  {
    bound := {};
    for j := 0 to |q.bindings|
      invariant forall x :: x in bound <==> x.queue == q.name && QueueBinding(x.exchange, x.key) in q.bindings[..j]
      invariant forall x :: x in q.bindings[..j] ==> x.exchange in kinds
    {
      if q.bindings[j].exchange !in kinds {
        assert q.bindings[j] in q.bindings;
        return false, bound;
      }
      bound := bound + {Binding(q.bindings[j].exchange, q.bindings[j].routingKey, q.name)};
      assert q.bindings[..j + 1] == q.bindings[..j] + [q.bindings[j]];
    }
    assert q.bindings[..|q.bindings|] == q.bindings;
    ok := true;
  }

  /** Declares the topology on a broker without queues. */
  method DeclareTopology(cfg: Config, predeclared: map<string, string>) returns (ok: bool, b: Broker)
    ensures ok ==> IsDeclared(cfg, b) && predeclared.Keys <= b.kinds.Keys
    ensures ok <==>
      Compatible(cfg.exchanges, predeclared)
      && (forall q, x :: q in cfg.queues && x in q.bindings ==>
            x.exchange in predeclared || exists ex :: ex in cfg.exchanges && ex.name == x.exchange)
  {
    var kinds;
    ok, kinds := DeclareExchanges(cfg.exchanges, predeclared);
    b := Broker(kinds, {}, {});
    if !ok {
      return;
    }
    for i := 0 to |cfg.queues|
      invariant b.kinds == kinds
      invariant forall n :: n in b.queues <==> exists j :: 0 <= j < i && cfg.queues[j].name == n
      invariant forall x :: x in b.bindings <==> exists j :: 0 <= j < i && HasBinding(cfg.queues[j], x)
      invariant forall j, x :: 0 <= j < i && x in cfg.queues[j].bindings ==> x.exchange in kinds
    {
      var bound;
      ok, bound := DeclareBindings(cfg.queues[i], kinds);
      if !ok {
        assert cfg.queues[i] in cfg.queues;
        return;
      }
      b := b.(queues := b.queues + {cfg.queues[i].name}, bindings := b.bindings + bound);
    }
    ok := true;
  }

  // The analysis

  datatype Warning =
    | NothingConsumed
    | MatchesEverything(rule: nat, queue: string)
    | QueueUndeclared(rule: nat, queue: string)
    | ExchangeUndeclared(rule: nat, exchange: string)
    | LoopViaBinding(rule: nat, exchange: string, key: string, queue: string)
    | LoopViaDefault(rule: nat, queue: string)

  ghost predicate IsTriggerQueue(cfg: Config, q: string) {
    exists i :: 0 <= i < |cfg.rules| && cfg.rules[i].trigger.queue == q
  }

  predicate IsDeclaredExchange(exchanges: seq<ExchangeDeclaration>, name: string) {
    exists i :: 0 <= i < |exchanges| && exchanges[i].name == name
  }

  /** The type the analysis assumes: that of the last declaration, or topic when there is none. */
  function AssumedKind(exchanges: seq<ExchangeDeclaration>, name: string): string {
    if exchanges == [] then "topic"
    else if exchanges[|exchanges| - 1].name == name then KindOf(exchanges[|exchanges| - 1])
    else AssumedKind(exchanges[..|exchanges| - 1], name)
  }

  /** The response reaches the declared queue through one of its bindings. */
  ghost predicate Reaches(cfg: Config, response: MockResponse, q: QueueDeclaration) {
    response.exchange != ""
    && exists key :: QueueBinding(response.exchange, key) in q.bindings
                     && KindRoutes(AssumedKind(cfg.exchanges, response.exchange), key, response.routingKey)
  }

  /** What each warning means. */
  ghost predicate Warranted(cfg: Config, w: Warning) {
    match w
    case NothingConsumed => cfg.rules == [] && cfg.spyQueues == []
    case MatchesEverything(i, q) =>
      i < |cfg.rules| && q == cfg.rules[i].trigger.queue
      && cfg.rules[i].trigger.jsonPathRules == [] && cfg.rules[i].trigger.routingKey == ""
    case QueueUndeclared(i, q) =>
      i < |cfg.rules| && q == cfg.rules[i].trigger.queue != "" && cfg.queues != []
      && forall j :: 0 <= j < |cfg.queues| ==> cfg.queues[j].name != q
    case ExchangeUndeclared(i, ex) =>
      i < |cfg.rules| && ex == cfg.rules[i].response.exchange != "" && cfg.exchanges != []
      && !IsDeclaredExchange(cfg.exchanges, ex) && !("amq." <= ex)
    case LoopViaBinding(i, ex, key, q) =>
      i < |cfg.rules| && ex == cfg.rules[i].response.exchange && key == cfg.rules[i].response.routingKey
      && IsTriggerQueue(cfg, q)
      && exists j :: 0 <= j < |cfg.queues| && cfg.queues[j].name == q && Reaches(cfg, cfg.rules[i].response, cfg.queues[j])
    case LoopViaDefault(i, q) =>
      i < |cfg.rules| && cfg.rules[i].response.exchange == "" && q == cfg.rules[i].response.routingKey != ""
      && IsTriggerQueue(cfg, q)
  }

  /** When there is nothing to warn of, loops aside. */
  lemma SilentExactly(cfg: Config)
    ensures (forall w :: Warranted(cfg, w) ==> IsLoop(w)) <==>
              && (cfg.rules != [] || cfg.spyQueues != [])
              && (forall i :: 0 <= i < |cfg.rules| ==>
                    var t, ex := cfg.rules[i].trigger, cfg.rules[i].response.exchange;
                    && (t.routingKey != "" || t.jsonPathRules != [])
                    && (t.queue == "" || cfg.queues == [] || exists j :: 0 <= j < |cfg.queues| && cfg.queues[j].name == t.queue)
                    && (ex == "" || cfg.exchanges == [] || "amq." <= ex
                        || exists j :: 0 <= j < |cfg.exchanges| && cfg.exchanges[j].name == ex))
  {
    if forall w :: Warranted(cfg, w) ==> IsLoop(w) {
      assert !Warranted(cfg, NothingConsumed);
      forall i | 0 <= i < |cfg.rules|
        ensures !Warranted(cfg, MatchesEverything(i, cfg.rules[i].trigger.queue))
        ensures !Warranted(cfg, QueueUndeclared(i, cfg.rules[i].trigger.queue))
        ensures !Warranted(cfg, ExchangeUndeclared(i, cfg.rules[i].response.exchange))
      {
      }
    }
  }

  /** responseReachesQueue; the loop over declarations lets the last one win. */
  method ResponseReachesQueue(cfg: Config, response: MockResponse, q: QueueDeclaration) returns (reaches: bool)
    ensures reaches <==> Reaches(cfg, response, q)
  {
    if response.exchange == "" {
      return false;
    }
    var kind := "topic";
    for i := 0 to |cfg.exchanges|
      invariant kind == AssumedKind(cfg.exchanges[..i], response.exchange)
    {
      assert cfg.exchanges[..i + 1][..i] == cfg.exchanges[..i];
      if cfg.exchanges[i].name == response.exchange {
        kind := cfg.exchanges[i].kind;
        if kind == "" {
          kind := "direct";
        }
      }
    }
    assert cfg.exchanges[..|cfg.exchanges|] == cfg.exchanges;
    for i := 0 to |q.bindings|
      invariant forall j :: 0 <= j < i && q.bindings[j].exchange == response.exchange ==>
        !KindRoutes(kind, q.bindings[j].routingKey, response.routingKey)
    {
      var b := q.bindings[i];
      if b.exchange == response.exchange {
        assert b == QueueBinding(response.exchange, b.routingKey);
        if kind == "fanout" {
          return true;
        } else if kind == "direct" {
          if b.routingKey == response.routingKey {
            return true;
          }
        } else if kind == "topic" {
          var matches := TopicMatches(b.routingKey, response.routingKey);
          if matches {
            return true;
          }
        }
      }
    }
    return false;
  }

  predicate AboutRule(w: Warning) {
    w.MatchesEverything? || w.QueueUndeclared? || w.ExchangeUndeclared?
  }

  predicate IsLoop(w: Warning) {
    w.LoopViaBinding? || w.LoopViaDefault?
  }

  /** What the first loop of Warnings says about rule i. */
  method WarningsOf(cfg: Config, i: nat, declaredQueues: set<string>, declaredExchanges: set<string>)
    returns (warns: seq<Warning>)
    requires i < |cfg.rules|
    requires declaredQueues == set j | 0 <= j < |cfg.queues| :: cfg.queues[j].name
    requires declaredExchanges == set j | 0 <= j < |cfg.exchanges| :: cfg.exchanges[j].name
    ensures forall w :: w in warns <==> AboutRule(w) && w.rule == i && Warranted(cfg, w)
  {
    assert cfg.queues != [] ==> cfg.queues[0].name in declaredQueues;
    assert cfg.exchanges != [] ==> cfg.exchanges[0].name in declaredExchanges;
    var r := cfg.rules[i];
    warns := [];
    if |r.trigger.jsonPathRules| == 0 && r.trigger.routingKey == "" {
      warns := warns + [MatchesEverything(i, r.trigger.queue)];
    }
    if declaredQueues != {} && r.trigger.queue != "" && r.trigger.queue !in declaredQueues {
      warns := warns + [QueueUndeclared(i, r.trigger.queue)];
    }
    var ex := r.response.exchange;
    if declaredExchanges != {} && ex != "" && ex !in declaredExchanges && !("amq." <= ex) {
      warns := warns + [ExchangeUndeclared(i, ex)];
    }
  }

  /** The first loop of Warnings, which also collects the trigger queues. */
  method RuleWarnings(cfg: Config) returns (warns: seq<Warning>, triggers: set<string>)
    ensures forall w :: w in warns <==> AboutRule(w) && Warranted(cfg, w)
    ensures forall q :: q in triggers <==> IsTriggerQueue(cfg, q)
  {
    var declaredQueues := set j | 0 <= j < |cfg.queues| :: cfg.queues[j].name;
    var declaredExchanges := set j | 0 <= j < |cfg.exchanges| :: cfg.exchanges[j].name;
    warns, triggers := [], {};
    for i := 0 to |cfg.rules|
      invariant forall w :: w in warns <==> AboutRule(w) && w.rule < i && Warranted(cfg, w)
      invariant forall q :: q in triggers <==> exists j :: 0 <= j < i && cfg.rules[j].trigger.queue == q
    {
      triggers := triggers + {cfg.rules[i].trigger.queue};
      var more := WarningsOf(cfg, i, declaredQueues, declaredExchanges);
      warns := warns + more;
    }
  }

  /** The second loop of Warnings. */
  method LoopWarnings(cfg: Config, triggers: set<string>) returns (warns: seq<Warning>)
    requires forall q :: q in triggers <==> IsTriggerQueue(cfg, q)
    ensures forall w :: w in warns <==> IsLoop(w) && Warranted(cfg, w)
  {
    warns := [];
    for i := 0 to |cfg.rules|
      invariant forall w :: w in warns <==> IsLoop(w) && w.rule < i && Warranted(cfg, w)
    {
      var response := cfg.rules[i].response;
      ghost var before := warns;
      for j := 0 to |cfg.queues|
        invariant forall w :: w in warns <==>
          (w in before
           || exists k :: 0 <= k < j && IsTriggerQueue(cfg, cfg.queues[k].name) && Reaches(cfg, response, cfg.queues[k])
                          && w == LoopViaBinding(i, response.exchange, response.routingKey, cfg.queues[k].name))
      {
        var q := cfg.queues[j];
        if q.name in triggers {
          var reaches := ResponseReachesQueue(cfg, response, q);
          if reaches {
            warns := warns + [LoopViaBinding(i, response.exchange, response.routingKey, q.name)];
          }
        }
      }
      if response.exchange == "" && response.routingKey in triggers && response.routingKey != "" {
        warns := warns + [LoopViaDefault(i, response.routingKey)];
      }
    }
  }

  /** Keeps the first occurrence of every element. */
  function FirstOccurrences<T(==)>(xs: seq<T>): seq<T> {
    if xs == [] then []
    else
      var rest, last := FirstOccurrences(xs[..|xs| - 1]), xs[|xs| - 1];
      if last in xs[..|xs| - 1] then rest else rest + [last]
  }

  lemma {:induction false} FirstOccurrencesMeaning<T>(xs: seq<T>, x: T)
    ensures x in FirstOccurrences(xs) <==> x in xs
    ensures NoDuplicates(FirstOccurrences(xs))
  {
    if xs != [] {
      var init := xs[..|xs| - 1];
      FirstOccurrencesMeaning(init, x);
      FirstOccurrencesMeaning(init, xs[|xs| - 1]);
      assert xs == init + [xs[|xs| - 1]];
    }
  }

  /** Where x occurs first. */
  function FirstIndex<T(==)>(xs: seq<T>, x: T): (i: nat)
    requires x in xs
    ensures i < |xs| && xs[i] == x && x !in xs[..i]
  {
    var init := xs[..|xs| - 1];
    if x in init then FirstIndex(init, x) else |xs| - 1
  }

  /** The elements stay in the order of their first occurrences. */
  lemma {:induction false} FirstOccurrencesInOrder<T>(xs: seq<T>, i: nat, j: nat)
    requires i < j < |FirstOccurrences(xs)|
    ensures FirstOccurrences(xs)[i] in xs && FirstOccurrences(xs)[j] in xs
    ensures FirstIndex(xs, FirstOccurrences(xs)[i]) < FirstIndex(xs, FirstOccurrences(xs)[j])
  {
    var init, rest := xs[..|xs| - 1], FirstOccurrences(xs[..|xs| - 1]);
    FirstOccurrencesMeaning(init, rest[i]);
    if j < |rest| {
      FirstOccurrencesInOrder(init, i, j);
      FirstOccurrencesMeaning(init, rest[j]);
    }
  }

  method Dedupe<T(==)>(xs: seq<T>) returns (out: seq<T>)
    ensures out == FirstOccurrences(xs)
  {
    var seen: set<T> := {};
    out := [];
    for i := 0 to |xs|
      invariant seen == set x | x in xs[..i]
      invariant out == FirstOccurrences(xs[..i])
    {
      assert xs[..i + 1] == xs[..i] + [xs[i]] && xs[..i + 1][..i] == xs[..i];
      if xs[i] !in seen {
        seen := seen + {xs[i]};
        out := out + [xs[i]];
      }
    }
    assert xs[..|xs|] == xs;
  }

  /** Each warranted warning is given exactly once, and no other. */
  method Warnings(cfg: Config) returns (warns: seq<Warning>)
    ensures forall w :: w in warns <==> Warranted(cfg, w)
    ensures NoDuplicates(warns)
  {
    warns := if |cfg.rules| == 0 && |cfg.spyQueues| == 0 then [NothingConsumed] else [];
    var perRule, triggers := RuleWarnings(cfg);
    var loops := LoopWarnings(cfg, triggers);
    var all := warns + perRule + loops;
    warns := Dedupe(all);
    forall w ensures w in warns <==> Warranted(cfg, w) {
      FirstOccurrencesMeaning(all, w);
    }
    FirstOccurrencesMeaning(all, NothingConsumed);
  }

  // The analysis against the broker

  /** Some loop warning names rule i and trigger queue q. */
  ghost predicate LoopWarned(cfg: Config, i: nat, q: string)
    requires i < |cfg.rules|
  {
    Warranted(cfg, LoopViaDefault(i, q))
    || Warranted(cfg, LoopViaBinding(i, cfg.rules[i].response.exchange, cfg.rules[i].response.routingKey, q))
  }

  ghost predicate DeliversResponse(cfg: Config, b: Broker, i: nat, q: string)
    requires i < |cfg.rules|
  {
    Delivers(b, cfg.rules[i].response.exchange, cfg.rules[i].response.routingKey, q)
  }

  lemma {:induction false} AssumedKindIsDeclared(exchanges: seq<ExchangeDeclaration>, name: string, kinds: map<string, string>)
    requires forall ex :: ex in exchanges ==> ex.name in kinds && kinds[ex.name] == KindOf(ex)
    ensures if IsDeclaredExchange(exchanges, name) then name in kinds && AssumedKind(exchanges, name) == kinds[name]
            else AssumedKind(exchanges, name) == "topic"
  {
    if exchanges != [] {
      var init, last := exchanges[..|exchanges| - 1], exchanges[|exchanges| - 1];
      assert last in exchanges;
      AssumedKindIsDeclared(init, name, kinds);
      assert IsDeclaredExchange(init, name) ==> IsDeclaredExchange(exchanges, name) by {
        assert forall j :: 0 <= j < |init| ==> init[j] == exchanges[j];
      }
      assert IsDeclaredExchange(exchanges, name) && last.name != name ==> IsDeclaredExchange(init, name) by {
        assert forall j :: 0 <= j < |init| ==> init[j] == exchanges[j];
      }
    }
  }

  /** The bindings the analysis looks at are those of the broker. */
  lemma BindingWarningMeaning(cfg: Config, b: Broker, i: nat, q: string)
    requires IsDeclared(cfg, b) && i < |cfg.rules| && IsTriggerQueue(cfg, q)
    ensures var response := cfg.rules[i].response;
            var kind := AssumedKind(cfg.exchanges, response.exchange);
            Warranted(cfg, LoopViaBinding(i, response.exchange, response.routingKey, q)) <==>
            response.exchange != ""
            && exists k :: Binding(response.exchange, k, q) in b.bindings && KindRoutes(kind, k, response.routingKey)
  {
    var response := cfg.rules[i].response;
    var kind := AssumedKind(cfg.exchanges, response.exchange);
    if Warranted(cfg, LoopViaBinding(i, response.exchange, response.routingKey, q)) {
      var j :| 0 <= j < |cfg.queues| && cfg.queues[j].name == q && Reaches(cfg, response, cfg.queues[j]);
      var key :| QueueBinding(response.exchange, key) in cfg.queues[j].bindings && KindRoutes(kind, key, response.routingKey);
      assert HasBinding(cfg.queues[j], Binding(response.exchange, key, q));
    }
    if response.exchange != "" {
      if k :| Binding(response.exchange, k, q) in b.bindings && KindRoutes(kind, k, response.routingKey) {
        var j :| 0 <= j < |cfg.queues| && HasBinding(cfg.queues[j], Binding(response.exchange, k, q));
        assert Reaches(cfg, response, cfg.queues[j]);
      }
    }
  }

  /** Soundness and completeness: for a configuration declared on a broker, and a response to the
      default exchange or to a declared direct, topic or fanout exchange, a loop warning for a
      declared trigger queue is given exactly when the broker delivers the response to it. Only a
      valid configuration is sure to have no trigger queue with an empty name. */
  lemma AnalysisIsExact(cfg: Config, b: Broker, i: nat, q: string)
    requires IsDeclared(cfg, b) && i < |cfg.rules|
    requires IsTriggerQueue(cfg, q) && q in b.queues && q != ""
    requires var ex := cfg.rules[i].response.exchange;
             ex == "" || (IsDeclaredExchange(cfg.exchanges, ex) && ex in b.kinds && b.kinds[ex] != "headers")
    ensures LoopWarned(cfg, i, q) <==> DeliversResponse(cfg, b, i, q)
  {
    BindingWarningMeaning(cfg, b, i, q);
    AssumedKindIsDeclared(cfg.exchanges, cfg.rules[i].response.exchange, b.kinds);
  }

  lemma ValidTriggersAreNamed(cfg: Config, q: string)
    requires Validation.Valid(cfg) && IsTriggerQueue(cfg, q)
    ensures q != ""
  {
    var t :| 0 <= t < |cfg.rules| && cfg.rules[t].trigger.queue == q;
    assert !Validation.Faulty(cfg, Validation.TriggerQueueEmpty(t));
  }

  /** For an exchange that exists on the broker but is not declared, the analysis assumes topic
      routing: it is exact for a topic exchange. Of a direct exchange it misses nothing, and it
      warns without a delivery exactly if some binding of the queue accepts the routing key as a
      topic pattern and none equals it. */
  lemma UndeclaredExchange(cfg: Config, b: Broker, i: nat, q: string)
    requires IsDeclared(cfg, b) && i < |cfg.rules| && IsTriggerQueue(cfg, q) && q in b.queues
    requires var ex := cfg.rules[i].response.exchange; ex != "" && !IsDeclaredExchange(cfg.exchanges, ex) && ex in b.kinds
    ensures var kind := b.kinds[cfg.rules[i].response.exchange];
            && (kind == "topic" ==> (LoopWarned(cfg, i, q) <==> DeliversResponse(cfg, b, i, q)))
            && (kind == "direct" && DeliversResponse(cfg, b, i, q) ==> LoopWarned(cfg, i, q))
            && (kind == "direct" ==>
                  (LoopWarned(cfg, i, q) && !DeliversResponse(cfg, b, i, q) <==>
                   var response := cfg.rules[i].response;
                   && Binding(response.exchange, response.routingKey, q) !in b.bindings
                   && exists k :: Binding(response.exchange, k, q) in b.bindings
                                  && Accepts(Words(k), Words(response.routingKey))))
  {
    BindingWarningMeaning(cfg, b, i, q);
    AssumedKindIsDeclared(cfg.exchanges, cfg.rules[i].response.exchange, b.kinds);
    var response := cfg.rules[i].response;
    if b.kinds[response.exchange] == "direct" && DeliversResponse(cfg, b, i, q) {
      TopicCoversDirect(response.routingKey, response.routingKey);
    }
  }

  /** For an undeclared fanout exchange the analysis misses a delivery exactly when no binding of
      the queue would pass the message on as a topic binding. */
  lemma UndeclaredFanoutMissed(cfg: Config, b: Broker, i: nat, q: string)
    requires IsDeclared(cfg, b) && i < |cfg.rules| && IsTriggerQueue(cfg, q) && q in b.queues
    requires var ex := cfg.rules[i].response.exchange;
             ex != "" && !IsDeclaredExchange(cfg.exchanges, ex) && ex in b.kinds && b.kinds[ex] == "fanout"
    requires DeliversResponse(cfg, b, i, q)
    ensures var response := cfg.rules[i].response;
            !LoopWarned(cfg, i, q) <==>
            forall k :: Binding(response.exchange, k, q) in b.bindings ==> !Accepts(Words(k), Words(response.routingKey))
  {
    BindingWarningMeaning(cfg, b, i, q);
    AssumedKindIsDeclared(cfg.exchanges, cfg.rules[i].response.exchange, b.kinds);
  }

  /** Such a miss: a binding whose one-word key differs from the one-word routing key, on an
      exchange that does not look at keys. */
  lemma UndeclaredFanoutWitness(key: string, other: string) returns (cfg: Config, b: Broker)
    requires key != other && '.' !in key && '.' !in other && other != "*" && other != "#"
    ensures Validation.Valid(cfg) && IsDeclared(cfg, b) && |cfg.rules| == 1 && IsTriggerQueue(cfg, "q") && "q" in b.queues
    ensures !LoopWarned(cfg, 0, "q") && DeliversResponse(cfg, b, 0, "q")
  {
    var rule := Rule("echo", Trigger("q", "", []), MockResponse("ex", key, 0, map[], Null));
    cfg := Config([], [QueueDeclaration("q", [QueueBinding("ex", other)])], [], [rule]);
    b := Broker(map["ex" := "fanout"], {"q"}, {Binding("ex", other, "q")});
    assert !Validation.IsSpace("echo"[0]);
    Validation.SmallIsValid(cfg);
    assert HasBinding(cfg.queues[0], Binding("ex", other, "q"));
    assert cfg.rules[0].trigger.queue == "q" && cfg.queues[0].name == "q";
    SingleWord(other);
    SingleWord(key);
    LiteralPatternIsExact([other], [key]);
    UndeclaredFanoutMissed(cfg, b, 0, "q");
  }

  lemma {:induction false} SingleWord(s: string)
    requires '.' !in s
    ensures Words(s) == [s]
  {
    if s != "" {
      SingleWord(s[1..]);
      assert s == [s[0]] + s[1..];
    }
  }
}
