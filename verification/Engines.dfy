/** Start, Reload and handleMessage of pkg/engine/engine.go as the code of one goroutine, and their
    relation to the steps of the running system. */
module Engines {
  import opened Basics
  import opened Config
  import opened Pipeline

  // desiredQueues

  /** The order of sort.Strings. */
  predicate LessEq(a: string, b: string) {
    a == "" || (b != "" && (a[0] < b[0] || (a[0] == b[0] && LessEq(a[1..], b[1..]))))
  }

  /** a and b first differ at k, where a has the smaller character. */
  predicate IsLessAt(a: string, b: string, k: nat) {
    k < |a| && k < |b| && a[..k] == b[..k] && a[k] < b[k]
  }

  lemma LessAtBehind(a: string, b: string, k: nat)
    requires a != "" && b != "" && a[0] == b[0]
    ensures IsLessAt(a[1..], b[1..], k) <==> IsLessAt(a, b, k + 1)
  {
    if k < |a| - 1 && k < |b| - 1 {
      assert a[..k + 1] == [a[0]] + a[1..][..k] && b[..k + 1] == [a[0]] + b[1..][..k];
      assert a[1..][..k] == a[..k + 1][1..] && b[1..][..k] == b[..k + 1][1..];
    }
  }

  /** A string comes before those it begins and those with a larger character where they first differ. */
  lemma {:induction false} LessEqMeaning(a: string, b: string)
    ensures LessEq(a, b) <==> a <= b || exists k: nat :: IsLessAt(a, b, k)
  {
    if a != "" && b != "" {
      LessEqMeaning(a[1..], b[1..]);
      if a[0] == b[0] {
        assert a == [a[0]] + a[1..] && b == [a[0]] + b[1..];
        if k: nat :| IsLessAt(a[1..], b[1..], k) {
          LessAtBehind(a, b, k);
        }
        if k: nat :| k > 0 && IsLessAt(a, b, k) {
          LessAtBehind(a, b, k - 1);
        }
      } else if a[0] < b[0] {
        assert IsLessAt(a, b, 0);
      }
    }
  }

  lemma {:induction false} LessEqTotal(a: string, b: string)
    ensures LessEq(a, b) || LessEq(b, a)
  {
    if a != "" && b != "" && a[0] == b[0] {
      LessEqTotal(a[1..], b[1..]);
    }
  }

  lemma {:induction false} LessEqTransitive(a: string, b: string, c: string)
    requires LessEq(a, b) && LessEq(b, c)
    ensures LessEq(a, c)
  {
    if a != "" && a[0] == b[0] == c[0] {
      LessEqTransitive(a[1..], b[1..], c[1..]);
    }
  }

  predicate Sorted(xs: seq<string>) {
    forall i, j :: 0 <= i < j < |xs| ==> LessEq(xs[i], xs[j])
  }

  /** sort.Strings, by insertion. */
  method SortStrings(xs: seq<string>) returns (r: seq<string>)
    ensures Sorted(r) && multiset(r) == multiset(xs)
  {
    r := [];
    for i := 0 to |xs|
      invariant Sorted(r) && multiset(r) == multiset(xs[..i])
    {
      assert xs[..i + 1] == xs[..i] + [xs[i]];
      r := InsertString(r, xs[i]);
    }
    assert xs[..|xs|] == xs;
  }

  method InsertString(xs: seq<string>, q: string) returns (r: seq<string>)
    requires Sorted(xs)
    ensures Sorted(r) && multiset(r) == multiset(xs) + multiset{q}
  {
    var k := |xs|;
    while k > 0 && !LessEq(xs[k - 1], q)
      invariant 0 <= k <= |xs| && forall j :: k <= j < |xs| ==> LessEq(q, xs[j])
    {
      LessEqTotal(xs[k - 1], q);
      k := k - 1;
    }
    forall j | 0 <= j < k ensures LessEq(xs[j], q) {
      if j < k - 1 {
        LessEqTransitive(xs[j], xs[k - 1], q);
      }
    }
    assert xs == xs[..k] + xs[k..];
    r := xs[..k] + [q] + xs[k..];
  }

  lemma SameElements(a: seq<string>, b: seq<string>)
    requires multiset(a) == multiset(b)
    ensures forall q :: q in a <==> q in b
    ensures NoDuplicates(a) ==> NoDuplicates(b)
  {
    forall q ensures q in a <==> q in b {
      assert q in multiset(a) <==> q in multiset(b);
    }
    if NoDuplicates(a) {
      forall i, j | 0 <= i < j < |b| ensures b[i] != b[j] {
        if b[i] == b[j] {
          assert b == b[..i] + [b[i]] + b[i + 1..j] + [b[j]] + b[j + 1..];
          assert multiset(b)[b[i]] >= 2;
          OccursOnce(a, b[i]);
          assert false;
        }
      }
    }
  }

  lemma {:induction false} OccursOnce(a: seq<string>, q: string)
    requires NoDuplicates(a)
    ensures multiset(a)[q] <= 1
  {
    if a != [] {
      OccursOnce(a[..|a| - 1], q);
      assert a == a[..|a| - 1] + [a[|a| - 1]];
    }
  }

  /** The queues to consume from: sorted, each once, and exactly the desired ones. */
  method DesiredQueues(cfg: Config) returns (queues: seq<string>)
    ensures Sorted(queues) && IsDesiredOrder(cfg, queues)
    ensures forall q :: q in queues <==>
              q != "" && (q in cfg.spyQueues || exists i :: 0 <= i < |cfg.rules| && cfg.rules[i].trigger.queue == q)
  {
    var names: set<string> := {};
    for i := 0 to |cfg.rules|
      invariant forall q :: q in names <==> q != "" && exists j :: 0 <= j < i && cfg.rules[j].trigger.queue == q
    {
      if cfg.rules[i].trigger.queue != "" {
        names := names + {cfg.rules[i].trigger.queue};
      }
    }
    ghost var triggers := names;
    for i := 0 to |cfg.spyQueues|
      invariant forall q :: q in names <==> q in triggers || (q != "" && q in cfg.spyQueues[..i])
    {
      if cfg.spyQueues[i] != "" {
        names := names + {cfg.spyQueues[i]};
      }
      assert cfg.spyQueues[..i + 1] == cfg.spyQueues[..i] + [cfg.spyQueues[i]];
    }
    assert cfg.spyQueues[..|cfg.spyQueues|] == cfg.spyQueues;
    assert forall q :: q in names <==> Desired(cfg, q);
    var listed: seq<string> := [];
    while names != {}
      invariant NoDuplicates(listed) && forall q :: q in listed ==> q !in names
      invariant forall q :: q in names || q in listed <==> Desired(cfg, q)
      decreases |names|
    {
      var q :| q in names;
      names, listed := names - {q}, listed + [q];
    }
    queues := SortStrings(listed);
    SameElements(listed, queues);
  }

  // What a goroutine inside Start or Reload does when no other interferes

  /** `actions` take the flags and the program counter of caller t from f, pc to f', pc' and have
      these effects. */
  ghost predicate Executes(
    f: Flags, t: nat, pc: Caller, actions: seq<CallerAction>, f': Flags, pc': Caller, effects: seq<Effect>)
    decreases actions
  {
    if actions == [] then f' == f && pc' == pc && effects == []
    else
      && CallerReady(f, pc, actions[0])
      && effects != [] && effects[0] == CallerEffect(f, pc, actions[0])
      && Executes(CallerFlags(f, t, pc, actions[0]), t, CallerPc(f, pc, actions[0]), actions[1..], f', pc', effects[1..])
  }

  lemma {:induction false} ExecutesOneMore(
    f: Flags, t: nat, pc: Caller, actions: seq<CallerAction>, f': Flags, pc': Caller, effects: seq<Effect>, more: CallerAction)
    requires Executes(f, t, pc, actions, f', pc', effects) && CallerReady(f', pc', more)
    ensures Executes(f, t, pc, actions + [more], CallerFlags(f', t, pc', more), CallerPc(f', pc', more),
                     effects + [CallerEffect(f', pc', more)])
    decreases actions
  {
    if actions == [] {
      assert [more][1..] == [] && [CallerEffect(f', pc', more)][1..] == [];
    } else {
      assert (actions + [more])[1..] == actions[1..] + [more];
      assert (effects + [CallerEffect(f', pc', more)])[1..] == effects[1..] + [CallerEffect(f', pc', more)];
      ExecutesOneMore(CallerFlags(f, t, pc, actions[0]), t, CallerPc(f, pc, actions[0]), actions[1..], f', pc', effects[1..], more);
    }
  }

  /** What a caller did since it was called, and with what effects. */
  datatype Trace = Trace(caller: nat, flags0: Flags, pc0: Caller, actions: seq<CallerAction>, effects: seq<Effect>) {
    function Then(action: CallerAction, effect: Effect): Trace {
      this.(actions := actions + [action], effects := effects + [effect])
    }

    predicate Begins(t: nat, f: Flags, pc: Caller) {
      caller == t && flags0 == f && pc0 == pc
    }
  }

  /** The trace leads to the flags f and the program counter pc, without waiting. */
  ghost predicate Leads(trace: Trace, f: Flags, pc: Caller) {
    && Executes(trace.flags0, trace.caller, trace.pc0, trace.actions, f, pc, trace.effects)
    && forall a :: a in trace.actions ==> IsUnguarded(a)
  }

  predicate OnlyConsumers(effects: seq<Effect>) {
    forall e :: e in effects ==> e.Nothing? || e.AddConsumer?
  }

  function LastEffect(effects: seq<Effect>): Effect {
    if effects == [] then Nothing else effects[|effects| - 1]
  }

  lemma BeginOnly(f: Flags, t: nat, pc: Caller) returns (trace: Trace)
    requires CallerReady(f, pc, Begin)
    ensures trace.Begins(t, f, pc) && trace.effects == [Nothing] && Added([Nothing]) == []
    ensures Leads(trace, CallerFlags(f, t, pc, Begin), BeginPc(f, pc))
  {
    trace := Trace(t, f, pc, [Begin], [Nothing]);
    assert [Begin][1..] == [] && [Nothing][1..] == [];
    AddedSnoc([], Nothing);
    assert [] + [Nothing] == [Nothing];
  }

  /** Entering Start or Reload and declaring the topology. */
  lemma BeginAndDeclare(f: Flags, t: nat, pc: Caller, ok: bool, order: seq<string>) returns (trace: Trace)
    requires CallerReady(f, pc, Begin) && InsideMu(BeginPc(f, pc))
    requires CallerReady(f.(mu := Some(t)), BeginPc(f, pc), Declare(ok, order))
    ensures trace.Begins(t, f, pc) && OnlyConsumers(trace.effects) && Added(trace.effects) == []
    ensures var g, locked := f.(mu := Some(t)), BeginPc(f, pc);
            Leads(trace, CallerFlags(g, t, locked, Declare(ok, order)), DeclarePc(g, locked, ok, order))
  {
    var first := BeginOnly(f, t, pc);
    var g, locked := f.(mu := Some(t)), BeginPc(f, pc);
    trace := first.Then(Declare(ok, order), Nothing);
    ExecutesOneMore(f, t, pc, first.actions, g, locked, first.effects, Declare(ok, order));
    AddedSnoc(first.effects, Nothing);
  }

  lemma CommitOnce(trace: Trace, f: Flags, pc: Caller) returns (after: Trace)
    requires Leads(trace, f, pc) && IsSubscribing(pc) && pc.todo == []
    ensures after == trace.Then(Commit, if pc.Starting? then StartLoop else LoadRules(pc.cfg.rules))
    ensures Added(after.effects) == Added(trace.effects)
    ensures Leads(after, if pc.Starting? then f.(mu := None, running := true) else f.(mu := None, cfg := pc.cfg),
                  Returned(if pc.Starting? then Started else Reloaded))
  {
    after := trace.Then(Commit, CallerEffect(f, pc, Commit));
    ExecutesOneMore(trace.flags0, trace.caller, trace.pc0, trace.actions, f, pc, trace.effects, Commit);
    AddedSnoc(trace.effects, CallerEffect(f, pc, Commit));
  }

  /** One round of the subscription loop, in the caller's terms. */
  lemma SubscribeOnce(trace: Trace, f: Flags, pc: Caller, ok: bool)
    requires Leads(trace, f, pc) && IsSubscribing(pc) && pc.todo != [] && f.writer == None
    requires if Skips(f, pc) then ok else ok ==> !f.closed
    ensures var effect := if Skips(f, pc) || !ok then Nothing else AddConsumer(pc.todo[0]);
            var after := trace.Then(Subscribe(ok), effect);
            && Added(after.effects) == Added(trace.effects) + (if effect.Nothing? then [] else [pc.todo[0]])
            && if ok then Leads(after, f.(subscribed := f.subscribed + {pc.todo[0]}), WithTodo(pc, pc.todo[1..]))
               else Leads(after, f.(mu := None), Returned(if pc.Starting? then StartFailed else ReloadFailed))
  {
    ExecutesOneMore(trace.flags0, trace.caller, trace.pc0, trace.actions, f, pc, trace.effects, Subscribe(ok));
    AddedSnoc(trace.effects, CallerEffect(f, pc, Subscribe(ok)));
  }

  ghost function WithTodo(pc: Caller, todo: seq<string>): Caller
    requires IsSubscribing(pc)
  {
    if pc.Starting? then Starting(todo) else Reloading(pc.cfg, todo)
  }

  /** Start and Reload wait for nothing but locks. */
  predicate IsUnguarded(action: CallerAction) {
    action.Begin? || action.Declare? || action.Subscribe? || action.Commit?
  }

  /** The queues of the consumers that the effects add. */
  function Added(effects: seq<Effect>): seq<string> {
    if effects == [] then []
    else Added(effects[..|effects| - 1]) + (match effects[|effects| - 1] case AddConsumer(q) => [q] case _ => [])
  }

  lemma AddedSnoc(effects: seq<Effect>, effect: Effect)
    ensures Added(effects + [effect]) == Added(effects) + (match effect case AddConsumer(q) => [q] case _ => [])
  {
    assert (effects + [effect])[..|effects|] == effects;
  }

  /** An execution is a run of the system, in any state where its caller is at pc and no step of
      another goroutine comes between. */
  lemma {:induction false} ExecutionIsARun(
    w: World, s: State, t: nat, actions: seq<CallerAction>, f': Flags, pc': Caller, effects: seq<Effect>) returns (s': State)
    requires t < |s.callers| && Executes(s.flags, t, s.callers[t], actions, f', pc', effects)
    requires forall a :: a in actions ==> IsUnguarded(a)
    ensures Run(w, s, CallsOf(t, actions), s')
    ensures s'.flags == f' && s'.callers == s.callers[t := pc']
    ensures s'.eng == ApplyAllToEngine(s.eng, effects) && s'.net == ApplyAllToNet(s.net, effects)
    decreases actions
  {
    if actions == [] {
      s' := s;
    } else {
      var step := Call(t, actions[0]);
      assert IsUnguarded(actions[0]);
      var next := Do(w, s, step);
      s' := ExecutionIsARun(w, next, t, actions[1..], f', pc', effects[1..]);
      CallsOfRest(t, actions);
      assert next.callers[t := pc'] == s.callers[t := pc'];
    }
  }

  lemma CallsOfRest(t: nat, actions: seq<CallerAction>)
    requires actions != []
    ensures CallsOf(t, actions) != [] && CallsOf(t, actions)[0] == Call(t, actions[0])
    ensures CallsOf(t, actions)[1..] == CallsOf(t, actions[1..])
  {
  }

  function CallsOf(t: nat, actions: seq<CallerAction>): seq<Step> {
    seq(|actions|, i requires 0 <= i < |actions| => Call(t, actions[i]))
  }

  function ApplyAllToNet(n: Net, effects: seq<Effect>): Net
    decreases effects
  {
    if effects == [] then n else ApplyAllToNet(ApplyToNet(n, effects[0]), effects[1..])
  }

  function ApplyAllToEngine(e: EngineState, effects: seq<Effect>): EngineState
    decreases effects
  {
    if effects == [] then e else ApplyAllToEngine(ApplyToEngine(e, effects[0]), effects[1..])
  }

  // What handleMessage dispatches

  /** RenderPayload on a rule's payload: the body, unless it fails. */
  type Renderer = (Rule, Message) -> Option<string>

  /** What one rule makes of a message: an attempt if it matches. */
  function Dispatched(
    w: World, render: Renderer, rule: Rule, p: Packet, entry: nat, generation: nat, i: nat): seq<Attempt>
  {
    if !MatchesRule(w.eval, rule, p.msg) then []
    else
      match render(rule, p.msg)
      case None => [Attempt(p, entry, generation, i, "", RenderFailed, false)]
      case Some(body) => [Attempt(p, entry, generation, i, body, if rule.response.delayMS > 0 then Delaying else Ready, true)]
  }

  /** What the first n rules make of it. */
  function Dispatches(
    w: World, render: Renderer, rules: seq<Rule>, p: Packet, entry: nat, generation: nat, n: nat): seq<Attempt>
    requires n <= |rules|
  {
    if n == 0 then []
    else
      Dispatches(w, render, rules, p, entry, generation, n - 1)
      + Dispatched(w, render, rules[n - 1], p, entry, generation, n - 1)
  }

  /** The counters after trying rule i. */
  function BumpedAt(hit: bool, counters: seq<nat>, i: nat): (r: seq<nat>)
    requires i < |counters|
    ensures |r| == |counters|
  {
    if hit then counters[i := counters[i] + 1] else counters
  }

  /** The counters after trying the first n rules on a message. */
  function Bumped(w: World, rules: seq<Rule>, m: Message, counters: seq<nat>, n: nat): (r: seq<nat>)
    requires n <= |rules| == |counters|
    ensures |r| == |counters|
  {
    if n == 0 then counters
    else BumpedAt(MatchesRule(w.eval, rules[n - 1], m), Bumped(w, rules, m, counters, n - 1), n - 1)
  }

  /** MatchesRule of pkg/engine/matcher.go: an empty queue or routing key matches everything. */
  method RuleMatches(eval: (string, JSONPathRule) -> bool, rule: Rule, m: Message) returns (matches: bool)
    ensures matches <==>
      && (rule.trigger.queue == "" || rule.trigger.queue == m.queue)
      && (rule.trigger.routingKey == "" || rule.trigger.routingKey == m.routingKey)
      && forall j :: 0 <= j < |rule.trigger.jsonPathRules| ==> eval(m.body, rule.trigger.jsonPathRules[j])
    ensures matches == MatchesRule(eval, rule, m)
  {
    if rule.trigger.queue != "" && rule.trigger.queue != m.queue {
      return false;
    }
    if rule.trigger.routingKey != "" && rule.trigger.routingKey != m.routingKey {
      return false;
    }
    for j := 0 to |rule.trigger.jsonPathRules|
      invariant forall k :: 0 <= k < j ==> eval(m.body, rule.trigger.jsonPathRules[k])
    {
      if !eval(m.body, rule.trigger.jsonPathRules[j]) {
        return false;
      }
    }
    return true;
  }

  /** Each rule whose conditions the message meets counts once, and no other does. */
  lemma {:induction false} BumpedMeaning(w: World, rules: seq<Rule>, m: Message, counters: seq<nat>, n: nat, i: nat)
    requires n <= |rules| == |counters| && i < |rules|
    ensures var t := rules[i].trigger;
            Bumped(w, rules, m, counters, n)[i] == counters[i] +
              if i < n && (t.queue == "" || t.queue == m.queue) && (t.routingKey == "" || t.routingKey == m.routingKey)
                 && forall j :: 0 <= j < |t.jsonPathRules| ==> w.eval(m.body, t.jsonPathRules[j])
              then 1 else 0
  {
    if n > 0 {
      BumpedMeaning(w, rules, m, counters, n - 1, i);
    }
  }

  /** Rule i has an attempt exactly if the message meets its conditions, ... */
  lemma {:induction false} DispatchesExactly(
    w: World, render: Renderer, rules: seq<Rule>, p: Packet, entry: nat, g: nat, n: nat, i: nat)
    requires n <= |rules| && i < |rules|
    ensures var t := rules[i].trigger;
            (exists a :: a in Dispatches(w, render, rules, p, entry, g, n) && a.rule == i) <==>
              && i < n && (t.queue == "" || t.queue == p.msg.queue) && (t.routingKey == "" || t.routingKey == p.msg.routingKey)
              && forall j :: 0 <= j < |t.jsonPathRules| ==> w.eval(p.msg.body, t.jsonPathRules[j])
  {
    if n > 0 {
      DispatchesExactly(w, render, rules, p, entry, g, n - 1, i);
      var before, last := Dispatches(w, render, rules, p, entry, g, n - 1), Dispatched(w, render, rules[n - 1], p, entry, g, n - 1);
      assert forall a :: a in before + last <==> a in before || a in last;
      assert last != [] ==> last[0] in last && last[0].rule == n - 1;
    }
  }

  ghost predicate RulesAscend(attempts: seq<Attempt>, n: nat) {
    && (forall k :: 0 <= k < |attempts| ==> attempts[k].rule < n)
    && forall j, k :: 0 <= j < k < |attempts| ==> attempts[j].rule < attempts[k].rule
  }

  /** ... the attempts are in the order of their rules, one for each, ... */
  lemma {:induction false} DispatchesAscend(
    w: World, render: Renderer, rules: seq<Rule>, p: Packet, entry: nat, g: nat, n: nat)
    requires n <= |rules|
    ensures RulesAscend(Dispatches(w, render, rules, p, entry, g, n), n)
  {
    if n > 0 {
      DispatchesAscend(w, render, rules, p, entry, g, n - 1);
      var before, last := Dispatches(w, render, rules, p, entry, g, n - 1), Dispatched(w, render, rules[n - 1], p, entry, g, n - 1);
      AscendOneMore(before, last, n);
    }
  }

  lemma AscendOneMore(before: seq<Attempt>, last: seq<Attempt>, n: nat)
    requires n > 0 && RulesAscend(before, n - 1) && |last| <= 1 && (last != [] ==> last[0].rule == n - 1)
    ensures RulesAscend(before + last, n)
  {
  }

  /** ... and each has what its rule renders: without a body it has failed, otherwise it waits for
      the rule's delay, or is ready when there is none. */
  lemma {:induction false} DispatchesMeaning(
    w: World, render: Renderer, rules: seq<Rule>, p: Packet, entry: nat, g: nat, n: nat, k: nat)
    requires n <= |rules| && k < |Dispatches(w, render, rules, p, entry, g, n)|
    ensures var a := Dispatches(w, render, rules, p, entry, g, n)[k];
            && a.packet == p && a.entry == entry && a.generation == g && a.rule < n
            && (a.live <==> render(rules[a.rule], p.msg).Some?)
            && (a.live ==> render(rules[a.rule], p.msg) == Some(a.body))
            && a.phase == (if !a.live then RenderFailed else if rules[a.rule].response.delayMS <= 0 then Ready else Delaying)
  {
    if k < |Dispatches(w, render, rules, p, entry, g, n - 1)| {
      DispatchesMeaning(w, render, rules, p, entry, g, n - 1, k);
    }
  }

  /** How many of the attempts have a worker. */
  function LiveCount(attempts: seq<Attempt>): nat {
    if attempts == [] then 0 else LiveCount(attempts[..|attempts| - 1]) + if attempts[|attempts| - 1].live then 1 else 0
  }

  lemma {:induction false} LiveCountConcat(a: seq<Attempt>, b: seq<Attempt>)
    ensures LiveCount(a + b) == LiveCount(a) + LiveCount(b)
  {
    if b == [] {
      assert a + b == a;
    } else {
      assert (a + b)[..|a + b| - 1] == a + b[..|b| - 1];
      LiveCountConcat(a, b[..|b| - 1]);
    }
  }

  // What handleMessage does is a run of the process loop

  /** The active rules have counters. */
  predicate Loaded(e: EngineState, g: nat) {
    g + 1 == |e.generations| == |e.counters| && |e.generations[g]| == |e.counters[g]|
  }

  /** The engine after trying active rule i on p. */
  function Round(w: World, render: Renderer, e: EngineState, p: Packet, entry: nat, g: nat, i: nat): EngineState
    requires g < |e.generations| && g < |e.counters| && i < |e.generations[g]| == |e.counters[g]|
  {
    var new' := Dispatched(w, render, e.generations[g][i], p, entry, g, i);
    e.(loop := Testing(p, entry, g, i + 1), attempts := e.attempts + new', wg := e.wg + LiveCount(new'),
       counters := e.counters[g := BumpedAt(MatchesRule(w.eval, e.generations[g][i], p.msg), e.counters[g], i)])
  }

  /** The engine after trying the first n active rules on p. */
  function Tried(w: World, render: Renderer, e: EngineState, p: Packet, entry: nat, g: nat, n: nat): (r: EngineState)
    requires Loaded(e, g) && n <= |e.generations[g]| && e.loop == Testing(p, entry, g, 0)
    ensures Loaded(r, g) && r.generations == e.generations && r.loop == Testing(p, entry, g, n)
  {
    if n == 0 then e
    else Round(w, render, Tried(w, render, e, p, entry, g, n - 1), p, entry, g, n - 1)
  }

  /** Only the attempts, the WaitGroup and the counters of the active rules change, as
      Engine.HandleMessage says. */
  lemma {:induction false} TriedAttempts(
    w: World, render: Renderer, e: EngineState, p: Packet, entry: nat, g: nat, n: nat)
    requires Loaded(e, g) && n <= |e.generations[g]| && e.loop == Testing(p, entry, g, 0)
    ensures Tried(w, render, e, p, entry, g, n).attempts == e.attempts + Dispatches(w, render, e.generations[g], p, entry, g, n)
    ensures Tried(w, render, e, p, entry, g, n).history == e.history
  {
    if n > 0 {
      TriedAttempts(w, render, e, p, entry, g, n - 1);
      Associative(e.attempts, Dispatches(w, render, e.generations[g], p, entry, g, n - 1),
                  Dispatched(w, render, e.generations[g][n - 1], p, entry, g, n - 1));
    }
  }

  lemma {:induction false} TriedWorkers(
    w: World, render: Renderer, e: EngineState, p: Packet, entry: nat, g: nat, n: nat)
    requires Loaded(e, g) && n <= |e.generations[g]| && e.loop == Testing(p, entry, g, 0)
    ensures Tried(w, render, e, p, entry, g, n).wg ==
            e.wg + LiveCount(Dispatches(w, render, e.generations[g], p, entry, g, n))
  {
    if n > 0 {
      TriedWorkers(w, render, e, p, entry, g, n - 1);
      LiveCountConcat(Dispatches(w, render, e.generations[g], p, entry, g, n - 1),
                      Dispatched(w, render, e.generations[g][n - 1], p, entry, g, n - 1));
    }
  }

  lemma {:induction false} TriedCounters(
    w: World, render: Renderer, e: EngineState, p: Packet, entry: nat, g: nat, n: nat)
    requires Loaded(e, g) && n <= |e.generations[g]| && e.loop == Testing(p, entry, g, 0)
    ensures Tried(w, render, e, p, entry, g, n).counters == e.counters[g := Bumped(w, e.generations[g], p.msg, e.counters[g], n)]
  {
    if n > 0 {
      TriedCounters(w, render, e, p, entry, g, n - 1);
    }
  }

  lemma MismatchIsOneStep(
    w: World, render: Renderer, e: EngineState, p: Packet, entry: nat, g: nat, i: nat, msgChan: seq<Packet>, cancelled: bool)
    requires Loaded(e, g) && i < |e.generations[g]| && e.loop == Testing(p, entry, g, i)
    requires !MatchesRule(w.eval, e.generations[g][i], p.msg)
    ensures LoopDo(w, e, msgChan, cancelled, TestRule) == Round(w, render, e, p, entry, g, i)
  {
    assert e.counters[g := e.counters[g]] == e.counters;
    assert e.attempts + [] == e.attempts;
  }

  lemma MatchIsCounted(w: World, e: EngineState, p: Packet, entry: nat, g: nat, i: nat, msgChan: seq<Packet>, cancelled: bool)
    requires Loaded(e, g) && i < |e.generations[g]| && e.loop == Testing(p, entry, g, i)
    requires MatchesRule(w.eval, e.generations[g][i], p.msg)
    ensures LoopDo(w, e, msgChan, cancelled, TestRule) ==
            e.(loop := Matched(p, entry, g, i), counters := e.counters[g := BumpedAt(true, e.counters[g], i)])
  {
  }

  function Dispatching(render: Renderer, rule: Rule, m: Message): LoopAction {
    match render(rule, m)
    case None => RenderFails
    case Some(body) => Spawn(body)
  }

  lemma MatchIsDispatched(
    w: World, render: Renderer, e: EngineState, p: Packet, entry: nat, g: nat, i: nat, msgChan: seq<Packet>, cancelled: bool)
    requires Loaded(e, g) && i < |e.generations[g]| && e.loop == Matched(p, entry, g, i)
    requires MatchesRule(w.eval, e.generations[g][i], p.msg)
    ensures var new' := Dispatched(w, render, e.generations[g][i], p, entry, g, i);
            LoopDo(w, e, msgChan, cancelled, Dispatching(render, e.generations[g][i], p.msg)) ==
            e.(loop := Testing(p, entry, g, i + 1), attempts := e.attempts + new', wg := e.wg + LiveCount(new'))
  {
    var new' := Dispatched(w, render, e.generations[g][i], p, entry, g, i);
    assert new'[..0] == [];
    assert LiveCount(new') == if new'[0].live then 1 else 0;
  }

  lemma RoundIsARun(w: World, render: Renderer, s: State, p: Packet, entry: nat, g: nat, i: nat)
    requires Loaded(s.eng, g) && i < |s.eng.generations[g]| && s.eng.loop == Testing(p, entry, g, i)
    ensures LeadsTo(w, s, s.(eng := Round(w, render, s.eng, p, entry, g, i)))
  {
    StepLeads(w, s, Process(TestRule));
    if MatchesRule(w.eval, s.eng.generations[g][i], p.msg) {
      var t, action := Do(w, s, Process(TestRule)), Dispatching(render, s.eng.generations[g][i], p.msg);
      MatchIsCounted(w, s.eng, p, entry, g, i, s.net.msgChan, s.flags.cancelled);
      MatchIsDispatched(w, render, t.eng, p, entry, g, i, t.net.msgChan, t.flags.cancelled);
      StepLeads(w, t, Process(action));
      LeadsOn(w, s, t, Do(w, t, Process(action)));
    } else {
      MismatchIsOneStep(w, render, s.eng, p, entry, g, i, s.net.msgChan, s.flags.cancelled);
    }
  }

  lemma {:induction false} RoundsAreARun(
    w: World, render: Renderer, s: State, p: Packet, entry: nat, g: nat, n: nat)
    requires Loaded(s.eng, g) && n <= |s.eng.generations[g]| && s.eng.loop == Testing(p, entry, g, 0)
    ensures LeadsTo(w, s, s.(eng := Tried(w, render, s.eng, p, entry, g, n)))
  {
    if n == 0 {
      assert Run(w, s, [], s);
    } else {
      RoundsAreARun(w, render, s, p, entry, g, n - 1);
      var before := s.(eng := Tried(w, render, s.eng, p, entry, g, n - 1));
      RoundIsARun(w, render, before, p, entry, g, n - 1);
      LeadsOn(w, s, before, before.(eng := Round(w, render, before.eng, p, entry, g, n - 1)));
    }
  }

  lemma EvaluationIsARun(w: World, render: Renderer, s: State, p: Packet, entry: nat, g: nat)
    requires s.eng.loop == Logged(p, entry) && Loaded(s.eng, g)
    ensures var e, n := s.eng.(loop := Testing(p, entry, g, 0)), |s.eng.generations[g]|;
            LeadsTo(w, s, s.(eng := Tried(w, render, e, p, entry, g, n).(loop := Idle)))
  {
    StepLeads(w, s, Process(Snapshot));
    var b := Do(w, s, Process(Snapshot));
    RoundsAreARun(w, render, b, p, entry, g, |s.eng.generations[g]|);
    var c := b.(eng := Tried(w, render, b.eng, p, entry, g, |s.eng.generations[g]|));
    LeadsOn(w, s, b, c);
    StepLeads(w, c, Process(TestRule));
    LeadsOn(w, s, c, Do(w, c, Process(TestRule)));
  }

  /** With no step of another goroutine in between, the process loop takes a message it received to
      what Engine.HandleMessage specifies: the entry in the spy, and unless the message is chitchat's
      own, the attempts and counters of the matching rules. */
  lemma HandlingIsARun(w: World, render: Renderer, s: State, p: Packet, g: nat)
    requires s.eng.loop == Taken(p) && Loaded(s.eng, g)
    ensures var entry := |s.eng.history|;
            var logged := s.eng.(history := s.eng.history + [ReceivedEntry(p)]);
            var after := if HasOrigin(p.msg) then logged
                         else Tried(w, render, logged.(loop := Testing(p, entry, g, 0)), p, entry, g, |s.eng.generations[g]|);
            LeadsTo(w, s, s.(eng := after.(loop := Idle)))
  {
    StepLeads(w, s, Process(LogReceived));
    if !HasOrigin(p.msg) {
      var a := Do(w, s, Process(LogReceived));
      var e := a.eng.(loop := Testing(p, |s.eng.history|, g, 0));
      EvaluationIsARun(w, render, a, p, |s.eng.history|, g);
      LeadsOn(w, s, a, a.(eng := Tried(w, render, e, p, |s.eng.history|, g, |s.eng.generations[g]|).(loop := Idle)));
    }
  }

  // The classes

  /** The driver as far as Start and Reload use it; the broker may refuse either call. */
  class Driver {
    var closed: bool
    var consuming: seq<string>

    constructor ()
      ensures !closed && consuming == []
    {
      closed, consuming := false, [];
    }

    method DeclareTopology() returns (ok: bool)
      ensures closed ==> !ok
    {
      ok := *;
      ok := ok && !closed;
    }

    method StartConsuming(queue: string) returns (ok: bool)
      modifies this`consuming
      ensures closed ==> !ok
      ensures consuming == if ok then old(consuming) + [queue] else old(consuming)
    {
      ok := *;
      ok := ok && !closed;
      if ok {
        consuming := consuming + [queue];
      }
    }
  }

  /** A loaded rule and its match counter. */
  class RuleState {
    const rule: Rule
    var matches: nat

    constructor (rule: Rule)
      ensures this.rule == rule && matches == 0
    {
      this.rule := rule;
      matches := 0;
    }

    method IncMatches()
      modifies this
      ensures matches == old(matches) + 1
    {
      matches := matches + 1;
    }
  }

  method NewRuleStates(rules: seq<Rule>) returns (states: seq<RuleState>)
    ensures RulesOf(states) == rules && NoDuplicates(states) && fresh(states)
    ensures forall i :: 0 <= i < |states| ==> states[i].matches == 0
  {
    states := [];
    for i := 0 to |rules|
      invariant |states| == i && NoDuplicates(states) && fresh(states)
      invariant forall j :: 0 <= j < i ==> states[j].rule == rules[j] && states[j].matches == 0
    {
      var state := new RuleState(rules[i]);
      states := states + [state];
    }
  }

  function RulesOf(states: seq<RuleState>): seq<Rule> {
    seq(|states|, i requires 0 <= i < |states| => states[i].rule)
  }

  /** Every trigger and spy queue of the configuration is subscribed. */
  ghost predicate Covers(cfg: Config, subscribed: set<string>) {
    && (forall i :: 0 <= i < |cfg.rules| && cfg.rules[i].trigger.queue != "" ==> cfg.rules[i].trigger.queue in subscribed)
    && forall q :: q in cfg.spyQueues && q != "" ==> q in subscribed
  }

  lemma OrderCovers(cfg: Config, queues: seq<string>, subscribed: set<string>)
    requires IsDesiredOrder(cfg, queues) && forall q :: q in queues ==> q in subscribed
    ensures Covers(cfg, subscribed)
  {
    forall i | 0 <= i < |cfg.rules| && cfg.rules[i].trigger.queue != "" ensures cfg.rules[i].trigger.queue in queues {
      assert Desired(cfg, cfg.rules[i].trigger.queue);
    }
  }

  class Engine {
    var cfg: Config
    const driver: Driver
    var running: bool
    var stopped: bool
    var subscribed: set<string>
    var rules: seq<RuleState>
    var spy: seq<Entry>
    var wg: int
    ghost var attempts: seq<Attempt>   // what became of the matches so far
    ghost var generation: nat
    ghost var retried: bool
    ghost var cancelled: bool

    ghost predicate Valid()
      reads this`rules
    {
      NoDuplicates(rules)
    }

    ghost function Counters(): (r: seq<nat>)
      reads this, rules
      ensures |r| == |rules|
    {
      seq(|rules|, i requires 0 <= i < |rules| reads this, rules => rules[i].matches)
    }

    /** These rules are loaded and none has matched yet. */
    ghost predicate HasFresh(loaded: seq<Rule>)
      reads this, rules
    {
      RulesOf(rules) == loaded && Counters() == ZeroCounters(loaded)
    }

    /** The flags that the steps of the system read and write, for a goroutine holding no lock. */
    ghost function Flags(): Flags
      reads this, driver
    {
      Pipeline.Flags(None, running, stopped, cancelled, subscribed, cfg, retried, None, driver.closed)
    }

    constructor (cfg: Config, driver: Driver)
      requires !driver.closed
      ensures Valid() && this.cfg == cfg && this.driver == driver && Flags() == Init(cfg).flags
      ensures RulesOf(rules) == cfg.rules && spy == [] && attempts == [] && wg == 0 && generation == 0
    {
      var states := NewRuleStates(cfg.rules);
      this.cfg, this.driver, rules := cfg, driver, states;
      running, stopped, subscribed, spy, attempts, wg := false, false, {}, [], [], 0;
      generation, retried, cancelled := 0, false, false;
    }

    /** The flags while caller t is inside Start or Reload. */
    ghost function Held(t: nat): Flags
      reads this, driver
    {
      Flags().(mu := Some(t))
    }

    /** One round of the subscription loop of Start and of Reload, which skips what is subscribed. */
    method SubscribeNext(queue: string, skipSubscribed: bool, ghost trace: Trace, ghost pc: Caller)
      returns (ok: bool, ghost after: Trace)
      requires IsSubscribing(pc) && pc.todo != [] && pc.todo[0] == queue && skipSubscribed == pc.Reloading?
      requires Leads(trace, Held(trace.caller), pc) && OnlyConsumers(trace.effects)
      modifies this`subscribed, driver`consuming
      ensures after.Begins(trace.caller, trace.flags0, trace.pc0) && OnlyConsumers(after.effects)
      ensures ok ==> Leads(after, Held(trace.caller), WithTodo(pc, pc.todo[1..]))
      ensures !ok ==> Leads(after, Flags(), Returned(if pc.Starting? then StartFailed else ReloadFailed))
      ensures subscribed == if ok then old(subscribed) + {queue} else old(subscribed)
      ensures var more := if ok && !(skipSubscribed && queue in old(subscribed)) then [queue] else [];
              Added(after.effects) == Added(trace.effects) + more && driver.consuming == old(driver.consuming) + more
    {
      ghost var f := Held(trace.caller);
      if skipSubscribed && queue in subscribed {
        SubscribeOnce(trace, f, pc, true);
        assert subscribed == subscribed + {queue};
        return true, trace.Then(Subscribe(true), Nothing);
      }
      ok := driver.StartConsuming(queue);
      SubscribeOnce(trace, f, pc, ok);
      after := trace.Then(Subscribe(ok), if ok then AddConsumer(queue) else Nothing);
      if ok {
        subscribed := subscribed + {queue};
      }
    }

    method SubscribeAll(queues: seq<string>, skipSubscribed: bool, ghost trace: Trace, ghost pc: Caller)
      returns (ok: bool, ghost after: Trace)
      requires IsSubscribing(pc) && pc.todo == queues && skipSubscribed == pc.Reloading?
      requires Leads(trace, Held(trace.caller), pc) && OnlyConsumers(trace.effects) && Added(trace.effects) == []
      modifies this`subscribed, driver`consuming
      ensures after.Begins(trace.caller, trace.flags0, trace.pc0) && OnlyConsumers(after.effects)
      ensures ok ==> Leads(after, Held(trace.caller), WithTodo(pc, []))
      ensures !ok ==> Leads(after, Flags(), Returned(if pc.Starting? then StartFailed else ReloadFailed))
      ensures driver.consuming == old(driver.consuming) + Added(after.effects)
      ensures ok ==> forall q :: q in subscribed <==> q in old(subscribed) || q in queues
      ensures ok && !skipSubscribed ==> Added(after.effects) == queues
    {
      after := trace;
      for i := 0 to |queues|
        invariant after.Begins(trace.caller, trace.flags0, trace.pc0) && OnlyConsumers(after.effects)
        invariant Leads(after, Held(trace.caller), WithTodo(pc, queues[i..]))
        invariant driver.consuming == old(driver.consuming) + Added(after.effects)
        invariant forall q :: q in subscribed <==> q in old(subscribed) || q in queues[..i]
        invariant !skipSubscribed ==> Added(after.effects) == queues[..i]
      {
        assert queues[..i + 1] == queues[..i] + [queues[i]];
        assert queues[i..][1..] == queues[i + 1..];
        ghost var was, before := subscribed, after;
        ok, after := SubscribeNext(queues[i], skipSubscribed, after, WithTodo(pc, queues[i..]));
        ghost var more := if ok && !(skipSubscribed && queues[i] in was) then [queues[i]] else [];
        Associative(old(driver.consuming), Added(before.effects), more);
        if !ok {
          return;
        }
      }
      assert queues[..|queues|] == queues;
      ok := true;
    }

    /** Start, as the actions of a caller t: it consumes from the desired queues in sorted order and
        starts the process loop, or fails on the way and leaves what it did. */
    method Start(ghost t: nat) returns (outcome: Outcome, ghost trace: Trace)
      requires Valid()
      modifies this`running, this`subscribed, this`wg, this`retried, driver`consuming
      ensures Valid() && trace.Begins(t, old(Flags()), StartCalled) && Leads(trace, Flags(), Returned(outcome))
      ensures driver.consuming == old(driver.consuming) + Added(trace.effects)
      ensures wg == old(wg) + if outcome == Started then 1 else 0
      ensures if outcome == Started then LastEffect(trace.effects) == StartLoop else OnlyConsumers(trace.effects)
      ensures outcome == StartRefused <==> old(stopped)
      ensures outcome == AlreadyRunning <==> !old(stopped) && old(running)
      ensures !old(stopped) && !old(running) ==> outcome == Started || outcome == StartFailed
      ensures running == (old(running) || outcome == Started)
      ensures outcome == Started ==>
        && Covers(cfg, subscribed)
        && exists queues :: Sorted(queues) && IsDesiredOrder(cfg, queues) && driver.consuming == old(driver.consuming) + queues
    {
      ghost var f0 := Flags();
      if stopped {
        trace := BeginOnly(f0, t, StartCalled);
        return StartRefused, trace;
      }
      if running {
        trace := BeginOnly(f0, t, StartCalled);
        return AlreadyRunning, trace;
      }
      var declared := driver.DeclareTopology();
      if !declared {
        trace := BeginAndDeclare(f0, t, StartCalled, false, SomeOrder(cfg));
        return StartFailed, trace;
      }
      outcome, trace := SubscribeAndRun(t);
    }

    /** The rest of Start, after the topology was declared. */
    method SubscribeAndRun(ghost t: nat) returns (outcome: Outcome, ghost trace: Trace)
      requires Valid() && !stopped && !running && !driver.closed
      modifies this`running, this`subscribed, this`wg, this`retried, driver`consuming
      ensures Valid() && trace.Begins(t, old(Flags()), StartCalled) && Leads(trace, Flags(), Returned(outcome))
      ensures driver.consuming == old(driver.consuming) + Added(trace.effects)
      ensures wg == old(wg) + if outcome == Started then 1 else 0
      ensures if outcome == Started then LastEffect(trace.effects) == StartLoop else OnlyConsumers(trace.effects)
      ensures outcome == Started || outcome == StartFailed
      ensures running <==> outcome == Started
      ensures outcome == Started ==>
        && Covers(cfg, subscribed)
        && exists queues :: Sorted(queues) && IsDesiredOrder(cfg, queues) && driver.consuming == old(driver.consuming) + queues
    {
      var queues := DesiredQueues(cfg);
      trace := BeginAndDeclare(Flags(), t, StartCalled, true, queues);
      retried := retried || subscribed != {};
      var ok;
      ok, trace := SubscribeAll(queues, false, trace, Starting(queues));
      if !ok {
        return StartFailed, trace;
      }
      OrderCovers(cfg, queues, subscribed);
      trace := CommitOnce(trace, Held(t), Starting([]));
      running := true;
      wg := wg + 1;
      outcome := Started;
    }

    /** Reload, as the actions of a caller t: it subscribes the desired queues that are not yet and
        then switches the rules, or fails on the way and leaves rules and configuration alone. */
    method Reload(newCfg: Config, ghost t: nat) returns (outcome: Outcome, ghost trace: Trace)
      requires Valid()
      modifies this`subscribed, this`rules, this`cfg, this`generation, driver`consuming
      ensures Valid() && trace.Begins(t, old(Flags()), ReloadCalled(newCfg)) && Leads(trace, Flags(), Returned(outcome))
      ensures driver.consuming == old(driver.consuming) + Added(trace.effects)
      ensures if outcome == Reloaded then LastEffect(trace.effects) == LoadRules(newCfg.rules) else OnlyConsumers(trace.effects)
      ensures if outcome == Reloaded then HasFresh(newCfg.rules) && generation == old(generation) + 1
              else rules == old(rules) && generation == old(generation)
      ensures outcome == ReloadRefused <==> old(stopped) || !old(running)
      ensures outcome == Reloaded || outcome == ReloadFailed || outcome == ReloadRefused
      ensures cfg == if outcome == Reloaded then newCfg else old(cfg)
      ensures outcome == Reloaded ==> Covers(newCfg, subscribed)
    {
      ghost var f0, pc0 := Flags(), ReloadCalled(newCfg);
      if stopped || !running {
        trace := BeginOnly(f0, t, pc0);
        return ReloadRefused, trace;
      }
      var declared := driver.DeclareTopology();
      if !declared {
        trace := BeginAndDeclare(f0, t, pc0, false, SomeOrder(newCfg));
        return ReloadFailed, trace;
      }
      outcome, trace := SubscribeAndLoad(newCfg, t);
    }

    /** The rest of Reload, after the topology was declared. */
    method SubscribeAndLoad(newCfg: Config, ghost t: nat) returns (outcome: Outcome, ghost trace: Trace)
      requires Valid() && !stopped && running && !driver.closed
      modifies this`subscribed, this`rules, this`cfg, this`generation, driver`consuming
      ensures Valid() && trace.Begins(t, old(Flags()), ReloadCalled(newCfg)) && Leads(trace, Flags(), Returned(outcome))
      ensures driver.consuming == old(driver.consuming) + Added(trace.effects)
      ensures if outcome == Reloaded then LastEffect(trace.effects) == LoadRules(newCfg.rules) else OnlyConsumers(trace.effects)
      ensures if outcome == Reloaded then HasFresh(newCfg.rules) && generation == old(generation) + 1
              else rules == old(rules) && generation == old(generation)
      ensures outcome == Reloaded || outcome == ReloadFailed
      ensures cfg == if outcome == Reloaded then newCfg else old(cfg)
      ensures outcome == Reloaded ==> Covers(newCfg, subscribed)
    {
      var queues := DesiredQueues(newCfg);
      trace := BeginAndDeclare(Flags(), t, ReloadCalled(newCfg), true, queues);
      var ok;
      ok, trace := SubscribeAll(queues, true, trace, Reloading(newCfg, queues));
      if !ok {
        return ReloadFailed, trace;
      }
      OrderCovers(newCfg, queues, subscribed);
      trace := CommitOnce(trace, Held(t), Reloading(newCfg, []));
      SwapRules(newCfg);
      outcome := Reloaded;
    }

    method SwapRules(newCfg: Config)
      modifies this`rules, this`cfg, this`generation
      ensures Valid() && HasFresh(newCfg.rules) && cfg == newCfg && generation == old(generation) + 1
    {
      rules := NewRuleStates(newCfg.rules);
      generation := generation + 1;
      cfg := newCfg;
    }

    /** One round of the rule loop of handleMessage. */
    method TryRule(w: World, render: Renderer, p: Packet, ghost entry: nat, i: nat)
      requires Valid() && i < |rules|
      modifies this`attempts, this`wg, rules[i]
      ensures var new' := Dispatched(w, render, rules[i].rule, p, entry, generation, i);
              attempts == old(attempts) + new' && wg == old(wg) + LiveCount(new')
      ensures Counters() == BumpedAt(MatchesRule(w.eval, rules[i].rule, p.msg), old(Counters()), i)
    {
      var rule := rules[i].rule;
      ghost var new' := Dispatched(w, render, rule, p, entry, generation, i);
      var matches := RuleMatches(w.eval, rule, p.msg);
      if !matches {
        return;
      }
      rules[i].IncMatches();
      attempts := attempts + new';
      match render(rule, p.msg)
      case None =>
      case Some(payload) => wg := wg + 1;
    }

    method TryRules(w: World, render: Renderer, p: Packet, ghost entry: nat)
      requires Valid()
      modifies this`attempts, this`wg, rules
      ensures var new' := Dispatches(w, render, RulesOf(rules), p, entry, generation, |rules|);
              attempts == old(attempts) + new' && wg == old(wg) + LiveCount(new')
      ensures Counters() == Bumped(w, RulesOf(rules), p.msg, old(Counters()), |rules|)
    {
      ghost var loaded, before := RulesOf(rules), Counters();
      ghost var started: seq<Attempt> := [];
      for i := 0 to |rules|
        invariant started == Dispatches(w, render, loaded, p, entry, generation, i)
        invariant attempts == old(attempts) + started && wg == old(wg) + LiveCount(started)
        invariant Counters() == Bumped(w, loaded, p.msg, before, i)
      {
        ghost var more := Dispatched(w, render, loaded[i], p, entry, generation, i);
        LiveCountConcat(started, more);
        Associative(old(attempts), started, more);
        ghost var here := Counters();
        TryRule(w, render, p, entry, i);
        assert Counters() == BumpedAt(MatchesRule(w.eval, loaded[i], p.msg), here, i);
        started := started + more;
      }
    }

    /** handleMessage: fill in the direction, record, guard against own messages, then try every
        loaded rule. */
    method HandleMessage(w: World, render: Renderer, packet: Packet)
      requires Valid()
      modifies this`spy, this`attempts, this`wg, rules
      ensures Valid()
      ensures var m := packet.msg;
              var own := "x-chitchat-origin" in m.headers && m.headers["x-chitchat-origin"] != Nil;
              var p := Packet(m.(direction := if m.direction == Unset then Received else m.direction), packet.source);
              var new' := if own then [] else Dispatches(w, render, RulesOf(rules), p, |old(spy)|, generation, |rules|);
              && spy == old(spy) + [ReceivedEntry(p)]
              && attempts == old(attempts) + new' && wg == old(wg) + LiveCount(new')
              && Counters() == if own then old(Counters()) else Bumped(w, RulesOf(rules), p.msg, old(Counters()), |rules|)
    {
      var p := if packet.msg.direction == Unset then packet.(msg := packet.msg.(direction := Received)) else packet;
      ghost var entry := |spy|;
      spy := spy + [ReceivedEntry(p)];
      assert Counters() == old(Counters());
      if HasOrigin(p.msg) {
        return;
      }
      TryRules(w, render, p, entry);
    }
  }

  ghost function SomeOrder(cfg: Config): (order: seq<string>)
    ensures IsDesiredOrder(cfg, order)
  {
    DesiredOrderExists(cfg);
    DistinctNames(ListedQueues(cfg))
  }
}
