/** The declaration and rule checks of Config.Validate (pkg/config/validate.go). */
module Validation {
  import opened Config

  datatype Problem =
    | ExchangeUnnamed(i: nat) | ExchangeDuplicate(i: nat) | ExchangeTypeUnknown(i: nat)
    | QueueUnnamed(i: nat) | QueueDuplicate(i: nat) | BindingWithoutExchange(i: nat, j: nat)
    | SpyQueueBlank(i: nat)
    | RuleUnnamed(i: nat) | RuleDuplicate(i: nat, first: nat) | TriggerQueueEmpty(i: nat)
    | FilterBlank(i: nat, j: nat) | NoTarget(i: nat) | DelayNegative(i: nat)

  const EXCHANGE_TYPES := {"", "direct", "topic", "fanout", "headers"}

  predicate IsSpace(c: char) {
    c in " \t\n\r" || c == 11 as char || c == 12 as char || c == 0x85 as char || c == 0xA0 as char
  }

  predicate IsBlank(s: string) {
    forall k :: 0 <= k < |s| ==> IsSpace(s[k])
  }

  /** What each reported problem means. */
  ghost predicate Faulty(cfg: Config, p: Problem) {
    match p
    case ExchangeUnnamed(i) => i < |cfg.exchanges| && cfg.exchanges[i].name == ""
    case ExchangeDuplicate(i) =>
      i < |cfg.exchanges| && cfg.exchanges[i].name != ""
      && exists j :: 0 <= j < i && cfg.exchanges[j].name == cfg.exchanges[i].name
    case ExchangeTypeUnknown(i) => i < |cfg.exchanges| && cfg.exchanges[i].kind !in EXCHANGE_TYPES
    case QueueUnnamed(i) => i < |cfg.queues| && cfg.queues[i].name == ""
    case QueueDuplicate(i) =>
      i < |cfg.queues| && cfg.queues[i].name != ""
      && exists j :: 0 <= j < i && cfg.queues[j].name == cfg.queues[i].name
    case BindingWithoutExchange(i, j) =>
      i < |cfg.queues| && j < |cfg.queues[i].bindings| && cfg.queues[i].bindings[j].exchange == ""
    case SpyQueueBlank(i) => i < |cfg.spyQueues| && IsBlank(cfg.spyQueues[i])
    case RuleUnnamed(i) => i < |cfg.rules| && IsBlank(cfg.rules[i].name)
    case RuleDuplicate(i, first) =>
      first < i < |cfg.rules| && !IsBlank(cfg.rules[i].name) && IsFirst(cfg.rules, cfg.rules[i].name, first)
    case TriggerQueueEmpty(i) => i < |cfg.rules| && cfg.rules[i].trigger.queue == ""
    case FilterBlank(i, j) =>
      i < |cfg.rules| && j < |cfg.rules[i].trigger.jsonPathRules|
      && IsBlank(cfg.rules[i].trigger.jsonPathRules[j].filter)
    case NoTarget(i) =>
      i < |cfg.rules| && cfg.rules[i].response.exchange == "" && cfg.rules[i].response.routingKey == ""
    case DelayNegative(i) => i < |cfg.rules| && cfg.rules[i].response.delayMS < 0
  }

  /** Rule `first` is the first one with this name. */
  ghost predicate IsFirst(rules: seq<Rule>, name: string, first: nat) {
    first < |rules| && rules[first].name == name && forall j :: 0 <= j < first ==> rules[j].name != name
  }

  ghost predicate Valid(cfg: Config) {
    forall p :: !Faulty(cfg, p)
  }

  /** Nothing but white space. */
  predicate IsWhite(s: string) {
    forall k :: 0 <= k < |s| ==>
      s[k] == ' ' || s[k] == '\t' || s[k] == '\n' || s[k] == '\r' || s[k] as int == 11 || s[k] as int == 12
      || s[k] as int == 0x85 || s[k] as int == 0xA0
  }

  lemma {:induction false} FirstOfName(rules: seq<Rule>, i: nat) returns (first: nat)
    requires i < |rules|
    ensures first <= i && IsFirst(rules, rules[i].name, first)
    decreases i
  {
    if j :| 0 <= j < i && rules[j].name == rules[i].name {
      first := FirstOfName(rules, j);
    } else {
      first := i;
    }
  }

  /** What a valid configuration is: exchanges with a known type, exchanges, queues and rules with
      different names, bindings to an exchange, spy queues that are not blank, and rules with a
      trigger queue, a target, filters that are not blank and no negative delay. */
  lemma ValidExactly(cfg: Config)
    ensures Valid(cfg) <==>
              && (forall i :: 0 <= i < |cfg.exchanges| ==>
                    && cfg.exchanges[i].name != ""
                    && (cfg.exchanges[i].kind == "" || cfg.exchanges[i].kind == "direct" || cfg.exchanges[i].kind == "topic"
                        || cfg.exchanges[i].kind == "fanout" || cfg.exchanges[i].kind == "headers"))
              && (forall i, j :: 0 <= i < j < |cfg.exchanges| ==> cfg.exchanges[i].name != cfg.exchanges[j].name)
              && (forall i :: 0 <= i < |cfg.queues| ==>
                    cfg.queues[i].name != "" && forall x :: x in cfg.queues[i].bindings ==> x.exchange != "")
              && (forall i, j :: 0 <= i < j < |cfg.queues| ==> cfg.queues[i].name != cfg.queues[j].name)
              && (forall i :: 0 <= i < |cfg.spyQueues| ==> !IsWhite(cfg.spyQueues[i]))
              && (forall i :: 0 <= i < |cfg.rules| ==> RuleIsComplete(cfg.rules[i]))
              && (forall i, j :: 0 <= i < j < |cfg.rules| ==> cfg.rules[i].name != cfg.rules[j].name)
  {
    forall i | 0 <= i < |cfg.spyQueues| ensures IsWhite(cfg.spyQueues[i]) <==> IsBlank(cfg.spyQueues[i]) {
      WhiteIsBlank(cfg.spyQueues[i]);
    }
    if Valid(cfg) {
      ValidTopology(cfg);
      ValidRules(cfg);
    } else {
      var p :| Faulty(cfg, p);
      NotFaulty(cfg, p);
    }
  }

  /** Every fault is one of these. */
  lemma NotFaulty(cfg: Config, p: Problem)
    requires Faulty(cfg, p)
    ensures p.ExchangeUnnamed? || p.ExchangeTypeUnknown? || p.ExchangeDuplicate? || p.QueueUnnamed? || p.QueueDuplicate?
         || p.BindingWithoutExchange? || p.SpyQueueBlank? || (p.i < |cfg.rules| && !RuleIsComplete(cfg.rules[p.i]))
         || (p.RuleDuplicate? && p.first < p.i < |cfg.rules| && cfg.rules[p.first].name == cfg.rules[p.i].name)
  {
    if p.RuleUnnamed? {
      WhiteIsBlank(cfg.rules[p.i].name);
    } else if p.FilterBlank? {
      WhiteIsBlank(cfg.rules[p.i].trigger.jsonPathRules[p.j].filter);
    }
  }

  predicate RuleIsComplete(r: Rule) {
    && !IsWhite(r.name) && r.trigger.queue != "" && r.response.delayMS >= 0
    && (r.response.exchange != "" || r.response.routingKey != "")
    && forall j :: 0 <= j < |r.trigger.jsonPathRules| ==> !IsWhite(r.trigger.jsonPathRules[j].filter)
  }

  lemma WhiteIsBlank(s: string)
    ensures IsWhite(s) <==> IsBlank(s)
  {
  }

  lemma ValidTopology(cfg: Config)
    requires Valid(cfg)
    ensures forall i :: 0 <= i < |cfg.exchanges| ==> cfg.exchanges[i].name != "" && cfg.exchanges[i].kind in EXCHANGE_TYPES
    ensures forall i, j :: 0 <= i < j < |cfg.exchanges| ==> cfg.exchanges[i].name != cfg.exchanges[j].name
    ensures forall i :: 0 <= i < |cfg.queues| ==>
              cfg.queues[i].name != "" && forall x :: x in cfg.queues[i].bindings ==> x.exchange != ""
    ensures forall i, j :: 0 <= i < j < |cfg.queues| ==> cfg.queues[i].name != cfg.queues[j].name
    ensures forall i :: 0 <= i < |cfg.spyQueues| ==> !IsBlank(cfg.spyQueues[i])
  {
    forall i | 0 <= i < |cfg.exchanges|
      ensures cfg.exchanges[i].name != "" && cfg.exchanges[i].kind in EXCHANGE_TYPES
      ensures forall j :: 0 <= j < i ==> cfg.exchanges[j].name != cfg.exchanges[i].name
    {
      assert !Faulty(cfg, ExchangeUnnamed(i)) && !Faulty(cfg, ExchangeTypeUnknown(i)) && !Faulty(cfg, ExchangeDuplicate(i));
    }
    forall i | 0 <= i < |cfg.queues|
      ensures cfg.queues[i].name != ""
      ensures forall j :: 0 <= j < i ==> cfg.queues[j].name != cfg.queues[i].name
    {
      assert !Faulty(cfg, QueueUnnamed(i)) && !Faulty(cfg, QueueDuplicate(i));
    }
    forall i, j | 0 <= i < |cfg.queues| && 0 <= j < |cfg.queues[i].bindings| ensures cfg.queues[i].bindings[j].exchange != "" {
      assert !Faulty(cfg, BindingWithoutExchange(i, j));
    }
    forall i | 0 <= i < |cfg.spyQueues| ensures !IsBlank(cfg.spyQueues[i]) {
      assert !Faulty(cfg, SpyQueueBlank(i));
    }
  }

  lemma ValidRules(cfg: Config)
    requires Valid(cfg)
    ensures forall i :: 0 <= i < |cfg.rules| ==> RuleIsComplete(cfg.rules[i])
    ensures forall i, j :: 0 <= i < j < |cfg.rules| ==> cfg.rules[i].name != cfg.rules[j].name
  {
    forall i, j | 0 <= i < |cfg.rules| && 0 <= j < |cfg.rules[i].trigger.jsonPathRules|
      ensures !IsWhite(cfg.rules[i].trigger.jsonPathRules[j].filter)
    {
      assert !Faulty(cfg, FilterBlank(i, j));
      WhiteIsBlank(cfg.rules[i].trigger.jsonPathRules[j].filter);
    }
    forall i | 0 <= i < |cfg.rules| ensures RuleIsComplete(cfg.rules[i]) {
      assert !Faulty(cfg, RuleUnnamed(i)) && !Faulty(cfg, TriggerQueueEmpty(i)) && !Faulty(cfg, NoTarget(i));
      assert !Faulty(cfg, DelayNegative(i));
      WhiteIsBlank(cfg.rules[i].name);
    }
    forall i, j | 0 <= i < j < |cfg.rules| ensures cfg.rules[i].name != cfg.rules[j].name {
      if cfg.rules[i].name == cfg.rules[j].name {
        var first := FirstOfName(cfg.rules, i);
        assert !Faulty(cfg, RuleUnnamed(j));
        assert Faulty(cfg, RuleDuplicate(j, first));
      }
    }
  }

  /** A configuration of at most one exchange, queue and rule has no duplicates. */
  lemma SmallIsValid(cfg: Config)
    requires |cfg.exchanges| <= 1 && |cfg.queues| <= 1 && |cfg.rules| <= 1 && cfg.spyQueues == []
    requires forall ex :: ex in cfg.exchanges ==> ex.name != "" && ex.kind in EXCHANGE_TYPES
    requires forall q :: q in cfg.queues ==> q.name != "" && forall x :: x in q.bindings ==> x.exchange != ""
    requires forall r :: r in cfg.rules ==>
      !IsBlank(r.name) && r.trigger.queue != "" && r.trigger.jsonPathRules == []
      && (r.response.exchange != "" || r.response.routingKey != "") && r.response.delayMS >= 0
    ensures Valid(cfg)
  {
    forall p ensures !Faulty(cfg, p) {
      assert cfg.exchanges != [] ==> cfg.exchanges[0] in cfg.exchanges;
      assert cfg.queues != [] ==> cfg.queues[0] in cfg.queues;
      assert cfg.rules != [] ==> cfg.rules[0] in cfg.rules;
    }
  }

  predicate AboutExchanges(p: Problem) {
    p.ExchangeUnnamed? || p.ExchangeDuplicate? || p.ExchangeTypeUnknown?
  }

  predicate AboutQueues(p: Problem) {
    p.QueueUnnamed? || p.QueueDuplicate? || p.BindingWithoutExchange?
  }

  predicate AboutRules(p: Problem) {
    !AboutExchanges(p) && !AboutQueues(p) && !p.SpyQueueBlank?
  }

  method CheckExchanges(cfg: Config) returns (problems: seq<Problem>)
    ensures forall p :: p in problems <==> AboutExchanges(p) && Faulty(cfg, p)
  {
    problems := [];
    var names: set<string> := {};
    for i := 0 to |cfg.exchanges|
      invariant forall n :: n in names <==> n != "" && exists j :: 0 <= j < i && cfg.exchanges[j].name == n
      invariant forall p :: p in problems <==> AboutExchanges(p) && p.i < i && Faulty(cfg, p)
    {
      var ex := cfg.exchanges[i];
      if ex.name == "" {
        problems := problems + [ExchangeUnnamed(i)];
      } else if ex.name in names {
        problems := problems + [ExchangeDuplicate(i)];
      } else {
        names := names + {ex.name};
      }
      if ex.kind !in EXCHANGE_TYPES {
        problems := problems + [ExchangeTypeUnknown(i)];
      }
    }
  }

  method CheckQueues(cfg: Config) returns (problems: seq<Problem>)
    ensures forall p :: p in problems <==> AboutQueues(p) && Faulty(cfg, p)
  {
    problems := [];
    var names: set<string> := {};
    for i := 0 to |cfg.queues|
      invariant forall n :: n in names <==> n != "" && exists j :: 0 <= j < i && cfg.queues[j].name == n
      invariant forall p :: p in problems <==> AboutQueues(p) && p.i < i && Faulty(cfg, p)
    {
      var q := cfg.queues[i];
      if q.name == "" {
        problems := problems + [QueueUnnamed(i)];
      } else if q.name in names {
        problems := problems + [QueueDuplicate(i)];
      } else {
        names := names + {q.name};
      }
      ghost var before := problems;
      for j := 0 to |q.bindings|
        invariant forall p :: p in problems <==>
          p in before || (p.BindingWithoutExchange? && p.i == i && p.j < j && Faulty(cfg, p))
      {
        if q.bindings[j].exchange == "" {
          problems := problems + [BindingWithoutExchange(i, j)];
        }
      }
    }
  }

  method CheckSpyQueues(cfg: Config) returns (problems: seq<Problem>)
    ensures forall p :: p in problems <==> p.SpyQueueBlank? && Faulty(cfg, p)
  {
    problems := [];
    for i := 0 to |cfg.spyQueues|
      invariant forall p :: p in problems <==> p.SpyQueueBlank? && p.i < i && Faulty(cfg, p)
    {
      if IsBlank(cfg.spyQueues[i]) {
        problems := problems + [SpyQueueBlank(i)];
      }
    }
  }

  /** `seen` maps the names of the first i rules to the first rule that uses them. */
  ghost predicate SeenUpTo(cfg: Config, i: nat, seen: map<string, nat>) {
    && (forall n :: n in seen ==> !IsBlank(n) && seen[n] < i && IsFirst(cfg.rules, n, seen[n]))
    && (forall j :: 0 <= j < i && j < |cfg.rules| && !IsBlank(cfg.rules[j].name) ==> cfg.rules[j].name in seen)
  }

  method CheckName(cfg: Config, i: nat, seen: map<string, nat>) returns (problems: seq<Problem>, seen': map<string, nat>)
    requires i < |cfg.rules| && SeenUpTo(cfg, i, seen)
    ensures SeenUpTo(cfg, i + 1, seen')
    ensures forall p :: p in problems <==> (p.RuleUnnamed? || p.RuleDuplicate?) && p.i == i && Faulty(cfg, p)
  {
    var name := cfg.rules[i].name;
    problems, seen' := [], seen;
    if IsBlank(name) {
      problems := [RuleUnnamed(i)];
    } else if name in seen {
      problems := [RuleDuplicate(i, seen[name])];
    } else {
      seen' := seen[name := i];
    }
  }

  method CheckRule(cfg: Config, i: nat) returns (problems: seq<Problem>)
    requires i < |cfg.rules|
    ensures forall p :: p in problems <==>
      AboutRules(p) && !p.RuleUnnamed? && !p.RuleDuplicate? && p.i == i && Faulty(cfg, p)
  {
    var r := cfg.rules[i];
    problems := if r.trigger.queue == "" then [TriggerQueueEmpty(i)] else [];
    ghost var before := problems;
    for j := 0 to |r.trigger.jsonPathRules|
      invariant forall p :: p in problems <==>
        p in before || (p.FilterBlank? && p.i == i && p.j < j && Faulty(cfg, p))
    {
      if IsBlank(r.trigger.jsonPathRules[j].filter) {
        problems := problems + [FilterBlank(i, j)];
      }
    }
    if r.response.exchange == "" && r.response.routingKey == "" {
      problems := problems + [NoTarget(i)];
    }
    if r.response.delayMS < 0 {
      problems := problems + [DelayNegative(i)];
    }
  }

  method CheckRules(cfg: Config) returns (problems: seq<Problem>)
    ensures forall p :: p in problems <==> AboutRules(p) && Faulty(cfg, p)
  {
    problems := [];
    var seen: map<string, nat> := map[];
    for i := 0 to |cfg.rules|
      invariant SeenUpTo(cfg, i, seen)
      invariant forall p :: p in problems <==> AboutRules(p) && p.i < i && Faulty(cfg, p)
    {
      var naming, more;
      naming, seen := CheckName(cfg, i, seen);
      more := CheckRule(cfg, i);
      problems := problems + naming + more;
    }
  }

  /** Reports every problem and nothing else; no report means the configuration is valid. */
  method Validate(cfg: Config) returns (problems: seq<Problem>)
    ensures forall p :: p in problems <==> Faulty(cfg, p)
    ensures problems == [] <==> Valid(cfg)
  {
    var exchanges := CheckExchanges(cfg);
    var queues := CheckQueues(cfg);
    var spyQueues := CheckSpyQueues(cfg);
    var rules := CheckRules(cfg);
    problems := exchanges + queues + spyQueues + rules;
    assert problems != [] ==> problems[0] in problems;
  }
}
