/** Where every match, publication and spy entry comes from: conservation of the match counters,
    traceability of published entries, and the bound on publications. */
module Provenance {
  import opened Basics
  import opened Config
  import opened Pipeline
  import Shutdown

  /** Rule sets and counters have the same shape, and the loop and the attempts point into them. */
  ghost predicate Indexed(e: EngineState) {
    && e.generations != [] && |e.counters| == |e.generations|
    && (forall g :: 0 <= g < |e.generations| ==> |e.counters[g]| == |e.generations[g]|)
    && (e.loop.Testing? ==> e.loop.generation < |e.generations| && e.loop.rule <= |e.generations[e.loop.generation]|)
    && (e.loop.Matched? ==> InRange(e, e.loop.generation, e.loop.rule))
    && (forall k :: 0 <= k < |e.attempts| ==> InRange(e, e.attempts[k].generation, e.attempts[k].rule))
  }

  predicate IsHandling(loop: Loop) {
    loop.Logged? || loop.Testing? || loop.Matched?
  }

  /** Entry `entry` records p as received, and p passed the loop guard. */
  predicate Records(history: seq<Entry>, entry: nat, p: Packet) {
    entry < |history| && history[entry] == ReceivedEntry(p) && !HasOrigin(p.msg)
  }

  /** A live worker was spawned; one that is done has an outcome. */
  predicate PhaseFits(a: Attempt) {
    if a.live then a.phase != RenderFailed else a.phase !in {Delaying, Ready, Sent}
  }

  /** The loop and every attempt work on a recorded message that matched their rule. */
  ghost predicate Traced(w: World, e: EngineState)
    requires Indexed(e)
  {
    && (IsHandling(e.loop) ==> Records(e.history, e.loop.entry, e.loop.packet))
    && (e.loop.Matched? ==>
          MatchesRule(w.eval, e.generations[e.loop.generation][e.loop.rule], e.loop.packet.msg))
    && (forall k :: 0 <= k < |e.attempts| ==>
          var a := e.attempts[k];
          PhaseFits(a) && Records(e.history, a.entry, a.packet) && MatchesRule(w.eval, RuleOf(e, a), a.packet.msg))
  }

  /** Attempt a was made before rule i was tried on the message of entry `entry`. */
  predicate Before(a: Attempt, entry: nat, generation: nat, rule: nat) {
    a.entry < entry || (a.entry == entry && a.generation == generation && a.rule < rule)
  }

  /** Attempts are made in order of entry and then of rule, each entry with one rule set. */
  ghost predicate Ordered(e: EngineState) {
    && (forall j, k :: 0 <= j < k < |e.attempts| ==>
          Before(e.attempts[j], e.attempts[k].entry, e.attempts[k].generation, e.attempts[k].rule))
    && (forall k :: 0 <= k < |e.attempts| ==> e.attempts[k].entry < |e.history|)
    && (e.loop.Logged? ==> forall k :: 0 <= k < |e.attempts| ==> e.attempts[k].entry < e.loop.entry)
    && (e.loop.Testing? || e.loop.Matched? ==> forall k :: 0 <= k < |e.attempts| ==>
          Before(e.attempts[k], e.loop.entry, e.loop.generation, e.loop.rule))
  }

  function ForRule(g: nat, i: nat): Attempt -> nat {
    (a: Attempt) => if a.generation == g && a.rule == i then 1 else 0
  }

  /** 1 while the loop has counted a match of the rule and has not yet rendered it. */
  function Pending(loop: Loop, g: nat, i: nat): nat {
    if loop.Matched? && loop.generation == g && loop.rule == i then 1 else 0
  }

  /** Each counter is the number of attempts of its rule, plus the one being rendered. */
  ghost predicate Counted(e: EngineState) {
    forall g, i :: 0 <= g < |e.counters| && 0 <= i < |e.counters[g]| ==>
      e.counters[g][i] == Sum(ForRule(g, i), e.attempts) + Pending(e.loop, g, i)
  }

  /** Entry h of the history records the publication of attempt k. */
  predicate IsEntryOf(history: seq<Entry>, h: nat, k: nat) {
    h < |history| && history[h].PublishedEntry? && history[h].attempt == k
  }

  /** Published entries and recorded attempts correspond one to one. */
  ghost predicate Published(e: EngineState)
    requires Indexed(e)
  {
    && (forall h :: 0 <= h < |e.history| && e.history[h].PublishedEntry? ==>
          var k := e.history[h].attempt;
          && k < |e.attempts| && e.attempts[k].phase == Recorded && e.attempts[k].entry < h
          && e.history[h].msg == PublishedMessage(RuleOf(e, e.attempts[k]), e.attempts[k].body))
    && (forall h, j :: 0 <= h < j < |e.history| && e.history[h].PublishedEntry? && e.history[j].PublishedEntry? ==>
          e.history[h].attempt != e.history[j].attempt)
    && (forall k :: 0 <= k < |e.attempts| && e.attempts[k].phase == Recorded ==>
          exists h :: IsEntryOf(e.history, h, k))
  }

  lemma LoopKeepsIndexed(w: World, e: EngineState, msgChan: seq<Packet>, cancelled: bool, action: LoopAction)
    requires Indexed(e) && LoopEnabled(e, msgChan, cancelled, action)
    ensures Indexed(LoopDo(w, e, msgChan, cancelled, action))
  {
  }

  lemma LoopKeepsTraced(w: World, e: EngineState, msgChan: seq<Packet>, cancelled: bool, action: LoopAction)
    requires Indexed(e) && Traced(w, e) && LoopEnabled(e, msgChan, cancelled, action)
    ensures var e' := LoopDo(w, e, msgChan, cancelled, action); Indexed(e') && Traced(w, e')
  {
    LoopKeepsIndexed(w, e, msgChan, cancelled, action);
  }

  lemma LoopKeepsOrdered(w: World, e: EngineState, msgChan: seq<Packet>, cancelled: bool, action: LoopAction)
    requires Indexed(e) && Traced(w, e) && Ordered(e) && LoopEnabled(e, msgChan, cancelled, action)
    ensures Ordered(LoopDo(w, e, msgChan, cancelled, action))
  {
  }

  /** A match raises one counter and is pending at once. */
  lemma TestKeepsCounted(w: World, e: EngineState, msgChan: seq<Packet>, cancelled: bool)
    requires Indexed(e) && Counted(e) && LoopEnabled(e, msgChan, cancelled, TestRule)
    ensures Counted(LoopDo(w, e, msgChan, cancelled, TestRule))
  {
    var e' := LoopDo(w, e, msgChan, cancelled, TestRule);
    var Testing(p, entry, g0, i0) := e.loop;
    if e'.loop.Matched? {
      forall g, i | 0 <= g < |e'.counters| && 0 <= i < |e'.counters[g]|
        ensures e'.counters[g][i] == Sum(ForRule(g, i), e'.attempts) + Pending(e'.loop, g, i)
      {
        assert e'.counters[g][i] == e.counters[g][i] + if g == g0 && i == i0 then 1 else 0;
      }
    }
  }

  /** The attempt that follows takes the pending match over. */
  lemma AttemptKeepsCounted(w: World, e: EngineState, msgChan: seq<Packet>, cancelled: bool, action: LoopAction)
    requires Indexed(e) && Counted(e) && LoopEnabled(e, msgChan, cancelled, action)
    requires action.RenderFails? || action.Spawn?
    ensures Counted(LoopDo(w, e, msgChan, cancelled, action))
  {
    var e' := LoopDo(w, e, msgChan, cancelled, action);
    var a := e'.attempts[|e.attempts|];
    forall g, i | 0 <= g < |e.counters| && 0 <= i < |e.counters[g]|
      ensures e'.counters[g][i] == Sum(ForRule(g, i), e'.attempts) + Pending(e'.loop, g, i)
    {
      SumSnoc(ForRule(g, i), e.attempts, a);
    }
  }

  lemma LoopKeepsCounted(w: World, e: EngineState, msgChan: seq<Packet>, cancelled: bool, action: LoopAction)
    requires Indexed(e) && Counted(e) && LoopEnabled(e, msgChan, cancelled, action)
    ensures Counted(LoopDo(w, e, msgChan, cancelled, action))
  {
    if action.TestRule? {
      TestKeepsCounted(w, e, msgChan, cancelled);
    } else if action.RenderFails? || action.Spawn? {
      AttemptKeepsCounted(w, e, msgChan, cancelled, action);
    }
  }

  lemma LoggingKeepsPublished(w: World, e: EngineState, msgChan: seq<Packet>, cancelled: bool)
    requires Indexed(e) && Published(e) && LoopEnabled(e, msgChan, cancelled, LogReceived)
    requires Indexed(LoopDo(w, e, msgChan, cancelled, LogReceived))
    ensures Published(LoopDo(w, e, msgChan, cancelled, LogReceived))
  {
    var e' := LoopDo(w, e, msgChan, cancelled, LogReceived);
    assert forall h :: 0 <= h < |e'.history| && e'.history[h].PublishedEntry? ==>
      h < |e.history| && e'.history[h] == e.history[h];
    forall k | 0 <= k < |e.attempts| && e.attempts[k].phase == Recorded ensures exists h :: IsEntryOf(e'.history, h, k) {
      var h :| IsEntryOf(e.history, h, k);
      assert IsEntryOf(e'.history, h, k);
    }
  }

  lemma LoopKeepsPublished(w: World, e: EngineState, msgChan: seq<Packet>, cancelled: bool, action: LoopAction)
    requires Indexed(e) && Published(e) && LoopEnabled(e, msgChan, cancelled, action)
    ensures var e' := LoopDo(w, e, msgChan, cancelled, action); Indexed(e') && Published(e')
  {
    LoopKeepsIndexed(w, e, msgChan, cancelled, action);
    if action.LogReceived? {
      LoggingKeepsPublished(w, e, msgChan, cancelled);
    }
  }

  /** A worker changes nothing of the engine but its attempt's phase and liveness, the WaitGroup
      and the end of the history. */
  ghost predicate WorkerMove(e: EngineState, e': EngineState, k: nat) {
    && k < |e.attempts| == |e'.attempts|
    && e'.attempts == e.attempts[k := e.attempts[k].(phase := e'.attempts[k].phase, live := e'.attempts[k].live)]
    && e'.generations == e.generations && e'.counters == e.counters && e'.loop == e.loop
    && |e.history| <= |e'.history| && e.history == e'.history[..|e.history|]
  }

  lemma WorkerIsMove(e: EngineState, f: Flags, k: nat, action: WorkerAction)
    requires WorkerEnabled(e, f, k, action)
    ensures var e' := WorkerDo(e, f, k, action);
            && WorkerMove(e, e', k) && PhaseFits(e'.attempts[k])
            && (action.LogPublished? ==>
                  e'.history == e.history + [PublishedEntry(k, PublishedMessage(RuleOf(e, e.attempts[k]), e.attempts[k].body))]
                  && e.attempts[k].phase == Sent && e'.attempts[k].phase == Recorded)
            && (!action.LogPublished? ==>
                  e'.history == e.history && (e'.attempts[k].phase == Recorded <==> e.attempts[k].phase == Recorded))
  {
  }

  lemma MoveKeepsTraced(w: World, e: EngineState, e': EngineState, k: nat)
    requires Indexed(e) && Traced(w, e) && Ordered(e) && WorkerMove(e, e', k) && PhaseFits(e'.attempts[k])
    ensures Indexed(e') && Traced(w, e') && Ordered(e')
  {
    assert forall h :: 0 <= h < |e.history| ==> e'.history[h] == e.history[h];
  }

  lemma WorkerKeepsCounted(e: EngineState, f: Flags, k: nat, action: WorkerAction)
    requires Indexed(e) && Counted(e) && WorkerEnabled(e, f, k, action)
    ensures Counted(WorkerDo(e, f, k, action))
  {
    var e' := WorkerDo(e, f, k, action);
    forall g, i | 0 <= g < |e.counters| && 0 <= i < |e.counters[g]|
      ensures e'.counters[g][i] == Sum(ForRule(g, i), e'.attempts) + Pending(e'.loop, g, i)
    {
      SumUpdate(ForRule(g, i), e.attempts, k, e'.attempts[k]);
    }
  }

  lemma MoveKeepsPublished(e: EngineState, e': EngineState, k: nat)
    requires Indexed(e) && Published(e) && Indexed(e') && WorkerMove(e, e', k)
    requires e'.history == e.history && (e'.attempts[k].phase == Recorded <==> e.attempts[k].phase == Recorded)
    ensures Published(e')
  {
  }

  lemma RecordingKeepsPublished(e: EngineState, e': EngineState, k: nat)
    requires Indexed(e) && Ordered(e) && Published(e) && Indexed(e') && WorkerMove(e, e', k)
    requires e.attempts[k].phase == Sent && e'.attempts[k].phase == Recorded
    requires e'.history == e.history + [PublishedEntry(k, PublishedMessage(RuleOf(e, e.attempts[k]), e.attempts[k].body))]
    ensures Published(e')
  {
    assert forall h :: 0 <= h < |e.history| ==> e'.history[h] == e.history[h];
    assert IsEntryOf(e'.history, |e.history|, k);
    forall j | 0 <= j < |e'.attempts| && j != k && e'.attempts[j].phase == Recorded
      ensures exists h :: IsEntryOf(e'.history, h, j)
    {
      var h :| IsEntryOf(e.history, h, j);
      assert IsEntryOf(e'.history, h, j);
    }
  }

  lemma EffectKeepsRules(e: EngineState, effect: Effect, k: nat)
    requires Indexed(e) && k < |e.attempts|
    ensures var e' := ApplyToEngine(e, effect);
            && e'.attempts == e.attempts && InRange(e, e.attempts[k].generation, e.attempts[k].rule)
            && InRange(e', e.attempts[k].generation, e.attempts[k].rule)
            && RuleOf(e', e.attempts[k]) == RuleOf(e, e.attempts[k])
  {
  }

  lemma EffectKeepsTraced(w: World, e: EngineState, effect: Effect)
    requires Indexed(e) && Traced(w, e) && (effect.StartLoop? ==> e.loop.NotStarted?)
    ensures var e' := ApplyToEngine(e, effect); Indexed(e') && Traced(w, e')
  {
    forall k | 0 <= k < |e.attempts|
      ensures RuleOf(ApplyToEngine(e, effect), e.attempts[k]) == RuleOf(e, e.attempts[k])
    {
      EffectKeepsRules(e, effect, k);
    }
  }

  lemma EffectKeepsStructure(w: World, e: EngineState, effect: Effect)
    requires Indexed(e) && Traced(w, e) && Ordered(e) && Published(e)
    requires effect.StartLoop? ==> e.loop.NotStarted?
    ensures var e' := ApplyToEngine(e, effect); Indexed(e') && Traced(w, e') && Ordered(e') && Published(e')
  {
    var e' := ApplyToEngine(e, effect);
    EffectKeepsTraced(w, e, effect);
    forall k | 0 <= k < |e.attempts| ensures RuleOf(e', e.attempts[k]) == RuleOf(e, e.attempts[k]) {
      EffectKeepsRules(e, effect, k);
    }
  }

  lemma EffectKeepsCounted(e: EngineState, effect: Effect)
    requires Indexed(e) && Counted(e) && (effect.StartLoop? ==> e.loop.NotStarted?)
    ensures Counted(ApplyToEngine(e, effect))
  {
    var e' := ApplyToEngine(e, effect);
    if effect.LoadRules? {
      var g := |e.generations|;
      forall i | 0 <= i < |effect.rules| ensures Sum(ForRule(g, i), e.attempts) == 0 {
        SumZero(ForRule(g, i), e.attempts);
      }
    }
  }

  ghost predicate Inv(w: World, e: EngineState) {
    Indexed(e) && Traced(w, e) && Ordered(e) && Counted(e) && Published(e)
  }

  lemma InvStep(w: World, s: State, step: Step)
    requires Shutdown.Inv(s) && Inv(w, s.eng) && Enabled(s, step)
    ensures Inv(w, Do(w, s, step).eng)
  {
    match step
    case Process(action) =>
      LoopKeepsTraced(w, s.eng, s.net.msgChan, s.flags.cancelled, action);
      LoopKeepsOrdered(w, s.eng, s.net.msgChan, s.flags.cancelled, action);
      LoopKeepsCounted(w, s.eng, s.net.msgChan, s.flags.cancelled, action);
      LoopKeepsPublished(w, s.eng, s.net.msgChan, s.flags.cancelled, action);
    case Work(k, action) =>
      var e' := WorkerDo(s.eng, s.flags, k, action);
      WorkerIsMove(s.eng, s.flags, k, action);
      MoveKeepsTraced(w, s.eng, e', k);
      WorkerKeepsCounted(s.eng, s.flags, k, action);
      if action.LogPublished? {
        RecordingKeepsPublished(s.eng, e', k);
      } else {
        MoveKeepsPublished(s.eng, e', k);
      }
    case Call(t, action) =>
      var effect := CallerEffect(s.flags, s.callers[t], action);
      Shutdown.CallKeepsInv(s, t, action);
      EffectKeepsStructure(w, s.eng, effect);
      EffectKeepsCounted(s.eng, effect);
    case _ =>
  }

  lemma InvOfNew(w: World, e: EngineState)
    requires e.loop.NotStarted? && e.attempts == [] && e.history == [] && |e.generations| == |e.counters| == 1
    requires e.counters[0] == ZeroCounters(e.generations[0])
    ensures Inv(w, e)
  {
  }

  lemma InvReachable(w: World, s: State)
    requires Reachable(w, s)
    ensures Inv(w, s.eng)
  {
    forall cfg ensures Inv(w, Init(cfg).eng) {
      InvOfNew(w, Init(cfg).eng);
    }
    forall u, step | Reachable(w, u) && Inv(w, u.eng) && Enabled(u, step) ensures Inv(w, Do(w, u, step).eng) {
      Shutdown.InvReachable(w, u);
      InvStep(w, u, step);
    }
    KeptFromStart(w, (u: State) => Inv(w, u.eng), s);
  }

  /** No step of the loop or of a live worker is ever held up by a missing rule or counter. */
  lemma NeverOutOfRange(w: World, s: State)
    requires Reachable(w, s)
    ensures s.eng.loop.Taken? ==> Enabled(s, Process(LogReceived))
    ensures s.eng.loop.Logged? ==> Enabled(s, Process(Snapshot))
    ensures s.eng.loop.Testing? ==> Enabled(s, Process(TestRule))
    ensures s.eng.loop.Matched? ==> forall body :: Enabled(s, Process(Spawn(body)))
    ensures forall k :: 0 <= k < |s.eng.attempts| ==> InRange(s.eng, s.eng.attempts[k].generation, s.eng.attempts[k].rule)
  {
    InvReachable(w, s);
  }

  /** Two attempts of one message under one rule are the same attempt: a rule publishes at most
      once per recorded message. */
  lemma AttemptPerEntryAndRule(w: World, s: State, j: nat, k: nat)
    requires Reachable(w, s) && j < |s.eng.attempts| && k < |s.eng.attempts|
    requires s.eng.attempts[j].entry == s.eng.attempts[k].entry && s.eng.attempts[j].rule == s.eng.attempts[k].rule
    ensures j == k
  {
    InvReachable(w, s);
  }

  /** The engine only reacts to a message that somebody else published and that meets every condition
      of the rule; an empty queue or routing key is none. */
  lemma AttemptsMeetConditions(w: World, s: State, k: nat)
    requires Reachable(w, s) && k < |s.eng.attempts|
    ensures var a := s.eng.attempts[k];
            && InRange(s.eng, a.generation, a.rule)
            && a.entry < |s.eng.history| && s.eng.history[a.entry] == ReceivedEntry(a.packet)
            && var m, t := a.packet.msg, RuleOf(s.eng, a).trigger;
               && ("x-chitchat-origin" in m.headers ==> m.headers["x-chitchat-origin"] == Nil)
               && (t.queue == "" || t.queue == m.queue) && (t.routingKey == "" || t.routingKey == m.routingKey)
               && forall j :: 0 <= j < |t.jsonPathRules| ==> w.eval(m.body, t.jsonPathRules[j])
  {
    InvReachable(w, s);
    assert ORIGIN_HEADER == "x-chitchat-origin";
  }

  /** Every published entry of the spy comes from an attempt for an earlier received entry, and
      carries what its rule configures and the attempt has rendered: exchange, routing key, rule name,
      body, and the headers with the origin header on top; no other published entry comes from the
      same attempt. */
  lemma PublishedEntriesAreTraceable(w: World, s: State, h: nat)
    requires Reachable(w, s) && h < |s.eng.history| && s.eng.history[h].PublishedEntry?
    ensures var k, m := s.eng.history[h].attempt, s.eng.history[h].msg;
            && k < |s.eng.attempts|
            && var a := s.eng.attempts[k];
               && InRange(s.eng, a.generation, a.rule)
               && a.entry < h && s.eng.history[a.entry] == ReceivedEntry(a.packet)
               && (forall j :: 0 <= j < |s.eng.history| && IsEntryOf(s.eng.history, j, k) ==> j == h)
               && var rule := RuleOf(s.eng, a);
                  && m.direction.Published? && m.rule == rule.name && m.body == a.body && m.queue == m.messageID == ""
                  && m.exchange == rule.response.exchange && m.routingKey == rule.response.routingKey
                  && m.headers.Keys == rule.response.headers.Keys + {"x-chitchat-origin"}
                  && m.headers["x-chitchat-origin"] == Printed(rule.name)
                  && forall name :: name in rule.response.headers && name != "x-chitchat-origin" ==>
                       m.headers[name] == rule.response.headers[name]
  {
    InvReachable(w, s);
    assert ORIGIN_HEADER == "x-chitchat-origin";
  }

  function InPhase(g: nat, i: nat, phase: Phase): Attempt -> nat {
    (a: Attempt) => if a.generation == g && a.rule == i && a.phase == phase then 1 else 0
  }

  /** How many attempts of rule i of generation g are in the given phase. */
  function Tally(e: EngineState, g: nat, i: nat, phase: Phase): nat {
    Sum(InPhase(g, i, phase), e.attempts)
  }

  lemma {:induction false} PhasesPartition(g: nat, i: nat, xs: seq<Attempt>)
    ensures Sum(ForRule(g, i), xs) ==
            Sum(InPhase(g, i, RenderFailed), xs) + Sum(InPhase(g, i, Cancelled), xs)
            + Sum(InPhase(g, i, PublishFailed), xs) + Sum(InPhase(g, i, Sent), xs)
            + Sum(InPhase(g, i, Recorded), xs) + Sum(InPhase(g, i, Delaying), xs) + Sum(InPhase(g, i, Ready), xs)
  {
    if xs != [] {
      PhasesPartition(g, i, xs[..|xs| - 1]);
    }
  }

  /** Conservation: every counted match of a rule, of the active rule set or of one replaced by
      a reload, is exactly one of: a render failure, a worker cancelled during its delay, a failed
      publication, a successful one, or work in progress. */
  lemma MatchesAreConserved(w: World, s: State, g: nat, i: nat)
    requires Reachable(w, s) && g < |s.eng.counters| && i < |s.eng.counters[g]|
    ensures s.eng.counters[g][i] ==
            Tally(s.eng, g, i, RenderFailed)
            + Tally(s.eng, g, i, Cancelled)
            + Tally(s.eng, g, i, PublishFailed)
            + (Tally(s.eng, g, i, Sent) + Tally(s.eng, g, i, Recorded))
            + (Pending(s.eng.loop, g, i) + Tally(s.eng, g, i, Delaying) + Tally(s.eng, g, i, Ready))
  {
    InvReachable(w, s);
    PhasesPartition(g, i, s.eng.attempts);
  }

  // After Close

  predicate IsPublished(a: Attempt) {
    a.phase == Sent || a.phase == Recorded
  }

  lemma ClosedPublishesNothing(w: World, s: State, step: Step)
    requires Reachable(w, s) && s.flags.closed && Enabled(s, step)
    ensures var s' := Do(w, s, step);
            && s'.flags.closed
            && |s.eng.attempts| <= |s'.eng.attempts|
            && (forall k :: 0 <= k < |s.eng.attempts| ==> (IsPublished(s.eng.attempts[k]) <==> IsPublished(s'.eng.attempts[k])))
            && (forall k :: |s.eng.attempts| <= k < |s'.eng.attempts| ==> !IsPublished(s'.eng.attempts[k]))
  {
    Shutdown.NoConsumerAddedAfterClose(w, s, step);
  }

  /** Once the driver is closed, with or without a drain, no publication succeeds any more, and
      an entry recorded as published belongs to a publication made before the close. */
  lemma {:induction false} NothingPublishedAfterClose(w: World, s: State, steps: seq<Step>, u: State)
    requires Reachable(w, s) && s.flags.closed && Run(w, s, steps, u)
    ensures forall k :: 0 <= k < |u.eng.attempts| && IsPublished(u.eng.attempts[k]) ==>
              k < |s.eng.attempts| && IsPublished(s.eng.attempts[k])
    ensures forall h :: 0 <= h < |u.eng.history| && u.eng.history[h].PublishedEntry? ==>
              var k := u.eng.history[h].attempt; k < |s.eng.attempts| && IsPublished(s.eng.attempts[k])
    decreases steps
  {
    if steps != [] {
      ClosedPublishesNothing(w, s, steps[0]);
      ReachableStep(w, s, steps[0]);
      NothingPublishedAfterClose(w, Do(w, s, steps[0]), steps[1..], u);
    }
    InvReachable(w, s);
  }

  // What may still be recorded after Close

  lemma HistoryGrows(w: World, s: State, steps: seq<Step>, u: State)
    requires Reachable(w, s) && Run(w, s, steps, u)
    ensures s.eng.history <= u.eng.history && Reachable(w, u)
  {
    var inv := (v: State) => s.eng.history <= v.eng.history;
    forall v, step | inv(v) && Enabled(v, step) ensures inv(Do(w, v, step)) {
      if step.Work? {
        WorkerIsMove(v.eng, v.flags, step.k, step.worker);
      }
    }
    KeptOnRun(w, inv, s, steps, u);
  }

  /** In some state that s leads to, entry h records the publication of attempt k. */
  ghost predicate WillRecord(w: World, s: State, h: nat, k: nat) {
    exists u :: LeadsTo(w, s, u) && IsEntryOf(u.eng.history, h, k)
  }

  lemma SentWillBeRecorded(w: World, s: State, k: nat)
    requires Reachable(w, s) && k < |s.eng.attempts| && s.eng.attempts[k].phase == Sent
    ensures WillRecord(w, s, |s.eng.history|, k)
  {
    InvReachable(w, s);
    var step := Work(k, LogPublished);
    var u := Do(w, s, step);
    assert [step][1..] == [];
    assert Run(w, s, [step], u);
    assert LeadsTo(w, s, u) && IsEntryOf(u.eng.history, |s.eng.history|, k);
  }

  /** With the driver closed, a new published entry of attempt k can only stem from a publication
      that succeeded before and is not recorded yet. */
  lemma NewEntryWasSent(w: World, s: State, h: nat, k: nat)
    requires Reachable(w, s) && s.flags.closed && h >= |s.eng.history| && WillRecord(w, s, h, k)
    ensures k < |s.eng.attempts| && s.eng.attempts[k].phase == Sent
  {
    var u :| LeadsTo(w, s, u) && IsEntryOf(u.eng.history, h, k);
    var steps :| Run(w, s, steps, u);
    NothingPublishedAfterClose(w, s, steps, u);
    HistoryGrows(w, s, steps, u);
    InvReachable(w, s);
    if s.eng.attempts[k].phase == Recorded {
      var j :| IsEntryOf(s.eng.history, j, k);
      assert IsEntryOf(u.eng.history, j, k);
      PublishedEntriesAreTraceable(w, u, h);
    }
  }

  /** After Close, also after a timed out Stop, a published entry of attempt k can still be written
      exactly if its publication succeeded before and is not yet recorded; and attempt k has an
      entry, now or later, exactly if its publication succeeded before. */
  lemma RecordedAfterCloseExactlyIfSent(w: World, s: State, k: nat)
    requires Reachable(w, s) && s.flags.closed
    ensures (exists h :: h >= |s.eng.history| && WillRecord(w, s, h, k)) <==>
              k < |s.eng.attempts| && s.eng.attempts[k].phase == Sent
    ensures (exists h :: WillRecord(w, s, h, k)) <==> k < |s.eng.attempts| && IsPublished(s.eng.attempts[k])
  {
    InvReachable(w, s);
    if h :| h >= |s.eng.history| && WillRecord(w, s, h, k) {
      NewEntryWasSent(w, s, h, k);
    }
    if h :| WillRecord(w, s, h, k) {
      var u :| LeadsTo(w, s, u) && IsEntryOf(u.eng.history, h, k);
      var steps :| Run(w, s, steps, u);
      NothingPublishedAfterClose(w, s, steps, u);
    }
    if k < |s.eng.attempts| && s.eng.attempts[k].phase == Sent {
      SentWillBeRecorded(w, s, k);
    }
    if k < |s.eng.attempts| && s.eng.attempts[k].phase == Recorded {
      var h :| IsEntryOf(s.eng.history, h, k);
      assert Run(w, s, [], s);
      assert LeadsTo(w, s, s);
      assert WillRecord(w, s, h, k);
    }
  }
}
