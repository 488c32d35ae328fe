/** The configuration entities of pkg/config/config.go that rule evaluation, routing and
    rendering look at, and the message type of pkg/broker/driver.go. */
module Config {
  import opened Basics

  /** Header stamped on every message that chitchat publishes. */
  const ORIGIN_HEADER := "x-chitchat-origin"

  /** A header value: Go's nil, or some value identified with its printed form. */
  datatype HeaderValue = Nil | Printed(text: string)

  type Headers = map<string, HeaderValue>

  datatype Direction = Unset | Received | Published

  datatype Message = Message(
    queue: string, routingKey: string, headers: Headers, body: string,
    direction: Direction, exchange: string, rule: string, messageID: string)

  /** A payload definition as decoded from YAML. */
  datatype Value =
    | Null
    | Text(text: string)
    | Scalar(literal: string)
    | List(items: seq<Value>)
    | Mapping(entries: map<Key, Value>)

  /** A mapping key: its Go type and its printed form. In a map[string]interface{} every kind is
      the same; in a map[interface{}]interface{} different keys may print alike. */
  datatype Key = Key(kind: string, printed: string)

  datatype JSONPathRule = JSONPathRule(filter: string, equals: Value)

  datatype Trigger = Trigger(queue: string, routingKey: string, jsonPathRules: seq<JSONPathRule>)

  datatype MockResponse = MockResponse(
    exchange: string, routingKey: string, delayMS: int, headers: Headers, payload: Value)

  datatype Rule = Rule(name: string, trigger: Trigger, response: MockResponse)

  datatype ExchangeDeclaration = ExchangeDeclaration(name: string, kind: string)

  datatype QueueBinding = QueueBinding(exchange: string, routingKey: string)

  datatype QueueDeclaration = QueueDeclaration(name: string, bindings: seq<QueueBinding>)

  datatype Config = Config(
    exchanges: seq<ExchangeDeclaration>, queues: seq<QueueDeclaration>,
    spyQueues: seq<string>, rules: seq<Rule>)

  /** The queues a configuration makes the engine consume from. */
  ghost predicate Desired(cfg: Config, q: string) {
    q != "" && (q in cfg.spyQueues || exists i :: 0 <= i < |cfg.rules| && cfg.rules[i].trigger.queue == q)
  }

  /** The trigger queues and the spy queues, as listed. */
  function ListedQueues(cfg: Config): seq<string> {
    seq(|cfg.rules|, i requires 0 <= i < |cfg.rules| => cfg.rules[i].trigger.queue) + cfg.spyQueues
  }

  function DistinctNames(names: seq<string>): (r: seq<string>)
    ensures NoDuplicates(r)
    ensures forall q :: q in r <==> q in names && q != ""
  {
    if names == [] then []
    else
      var rest, last := DistinctNames(names[..|names| - 1]), names[|names| - 1];
      if last == "" || last in rest then rest else rest + [last]
  }

  ghost predicate IsDesiredOrder(cfg: Config, order: seq<string>) {
    NoDuplicates(order) && forall q :: q in order <==> Desired(cfg, q)
  }

  lemma ListedAreDesired(cfg: Config, q: string)
    ensures q in ListedQueues(cfg) && q != "" <==> Desired(cfg, q)
  {
    if i :| 0 <= i < |cfg.rules| && cfg.rules[i].trigger.queue == q {
      assert ListedQueues(cfg)[i] == q;
    }
    if i :| 0 <= i < |cfg.spyQueues| && cfg.spyQueues[i] == q {
      assert ListedQueues(cfg)[|cfg.rules| + i] == q;
    }
  }

  lemma DesiredOrderExists(cfg: Config)
    ensures IsDesiredOrder(cfg, DistinctNames(ListedQueues(cfg)))
  {
    forall q ensures q in DistinctNames(ListedQueues(cfg)) <==> Desired(cfg, q) {
      ListedAreDesired(cfg, q);
    }
  }

  lemma DesiredOrderBound(cfg: Config, order: seq<string>)
    requires IsDesiredOrder(cfg, order)
    ensures |order| <= |cfg.rules| + |cfg.spyQueues|
  {
    var listed := ListedQueues(cfg);
    ElementsBound(order);
    ElementsBound(listed);
    forall q | q in order ensures q in listed {
      ListedAreDesired(cfg, q);
    }
    SubsetBound(Elements(order), Elements(listed));
  }

  /** The loop guard's test: the origin header is present and not nil. */
  predicate HasOrigin(m: Message) {
    ORIGIN_HEADER in m.headers && m.headers[ORIGIN_HEADER] != Nil
  }

  /** Rule matching; `eval` stands for the JSONPath evaluation on the message body. */
  predicate MatchesRule(eval: (string, JSONPathRule) -> bool, rule: Rule, m: Message) {
    && (rule.trigger.queue != "" ==> rule.trigger.queue == m.queue)
    && (rule.trigger.routingKey != "" ==> rule.trigger.routingKey == m.routingKey)
    && forall j :: 0 <= j < |rule.trigger.jsonPathRules| ==> eval(m.body, rule.trigger.jsonPathRules[j])
  }

  /** The headers of a mock response: the configured ones with the origin stamped over them. */
  function StampedHeaders(rule: Rule): Headers {
    rule.response.headers[ORIGIN_HEADER := Printed(rule.name)]
  }
}
