/** No match is passed over: whatever the other goroutines do, each received message that chitchat
    did not publish itself has an attempt for every rule of one rule set whose conditions it meets. */
module Completeness {
  import opened Basics
  import opened Config
  import opened Pipeline
  import Provenance
  import Shutdown

  ghost predicate HasAttempt(e: EngineState, h: nat, g: nat, i: nat) {
    exists k :: 0 <= k < |e.attempts| && e.attempts[k].entry == h && e.attempts[k].generation == g && e.attempts[k].rule == i
  }

  /** The first n rules of rule set g that match message m have an attempt for entry h. */
  ghost predicate Covered(w: World, e: EngineState, h: nat, m: Message, g: nat, n: nat) {
    && g < |e.generations| && n <= |e.generations[g]|
    && forall i :: 0 <= i < n && MatchesRule(w.eval, e.generations[g][i], m) ==> HasAttempt(e, h, g, i)
  }

  /** Entry h records a message from outside. */
  predicate IsTrigger(history: seq<Entry>, h: nat) {
    h < |history| && history[h].ReceivedEntry? && !HasOrigin(history[h].packet.msg)
  }

  predicate IsHandling(loop: Loop, h: nat) {
    Provenance.IsHandling(loop) && loop.entry == h
  }

  ghost predicate Answered(w: World, e: EngineState, h: nat) {
    IsTrigger(e.history, h) ==>
      var m := e.history[h].packet.msg;
      if !IsHandling(e.loop, h) then exists g: nat :: g < |e.generations| && Covered(w, e, h, m, g, |e.generations[g]|)
      else e.loop.Logged? || Covered(w, e, h, m, e.loop.generation, e.loop.rule)
  }

  /** e' has what e has, and perhaps more. */
  ghost predicate Extends(e: EngineState, e': EngineState) {
    && e.history <= e'.history && e.generations <= e'.generations && |e.attempts| <= |e'.attempts|
    && forall k :: 0 <= k < |e.attempts| ==>
         && e'.attempts[k].entry == e.attempts[k].entry && e'.attempts[k].generation == e.attempts[k].generation
         && e'.attempts[k].rule == e.attempts[k].rule
  }

  lemma CoveredStays(w: World, e: EngineState, e': EngineState, h: nat, m: Message, g: nat, n: nat)
    requires Covered(w, e, h, m, g, n) && Extends(e, e')
    ensures Covered(w, e', h, m, g, n)
  {
    forall i | 0 <= i < n && MatchesRule(w.eval, e'.generations[g][i], m) ensures HasAttempt(e', h, g, i) {
      assert e'.generations[g] == e.generations[g];
      var k :| 0 <= k < |e.attempts| && e.attempts[k].entry == h && e.attempts[k].generation == g && e.attempts[k].rule == i;
      assert e'.attempts[k].entry == h;
    }
  }

  /** A step that does not touch the loop's position keeps what is answered. */
  lemma AnsweredStays(w: World, e: EngineState, e': EngineState, h: nat)
    requires Answered(w, e, h) && Extends(e, e') && h < |e.history|
    requires IsHandling(e.loop, h) ==> e'.loop == e.loop
    requires !IsHandling(e.loop, h) ==> !IsHandling(e'.loop, h)
    ensures Answered(w, e', h)
  {
    if IsTrigger(e'.history, h) {
      assert e'.history[h] == e.history[h];
      var m := e.history[h].packet.msg;
      if !IsHandling(e.loop, h) {
        var g: nat :| g < |e.generations| && Covered(w, e, h, m, g, |e.generations[g]|);
        assert e'.generations[g] == e.generations[g];
        CoveredStays(w, e, e', h, m, g, |e.generations[g]|);
      } else if !e.loop.Logged? {
        CoveredStays(w, e, e', h, m, e.loop.generation, e.loop.rule);
      }
    }
  }

  /** Trying the next rule on the message of entry h. */
  lemma TestKeepsAnswered(w: World, e: EngineState, msgChan: seq<Packet>, cancelled: bool, h: nat)
    requires Provenance.Indexed(e) && Provenance.Traced(w, e) && Answered(w, e, h)
    requires LoopEnabled(e, msgChan, cancelled, TestRule) && e.loop.entry == h
    ensures Answered(w, LoopDo(w, e, msgChan, cancelled, TestRule), h)
  {
    var e' := LoopDo(w, e, msgChan, cancelled, TestRule);
    if IsTrigger(e.history, h) {
      var m, g, i := e.history[h].packet.msg, e.loop.generation, e.loop.rule;
      CoveredStays(w, e, e', h, m, g, i);
      if i >= |e.generations[g]| {
        assert Covered(w, e', h, m, g, |e'.generations[g]|);
      }
    }
  }

  /** A match is rendered: its attempt covers rule e.loop.rule. */
  lemma AttemptKeepsAnswered(w: World, e: EngineState, msgChan: seq<Packet>, cancelled: bool, action: LoopAction, h: nat)
    requires Answered(w, e, h) && LoopEnabled(e, msgChan, cancelled, action)
    requires (action.RenderFails? || action.Spawn?) && e.loop.entry == h
    ensures Answered(w, LoopDo(w, e, msgChan, cancelled, action), h)
  {
    var e' := LoopDo(w, e, msgChan, cancelled, action);
    if IsTrigger(e.history, h) {
      var m, g, i := e.history[h].packet.msg, e.loop.generation, e.loop.rule;
      CoveredStays(w, e, e', h, m, g, i);
      assert HasAttempt(e', h, g, i) by {
        assert e'.attempts[|e.attempts|].rule == i;
      }
    }
  }

  lemma LoopKeepsAnswered(w: World, e: EngineState, msgChan: seq<Packet>, cancelled: bool, action: LoopAction, h: nat)
    requires Provenance.Indexed(e) && Provenance.Traced(w, e) && Answered(w, e, h)
    requires LoopEnabled(e, msgChan, cancelled, action)
    ensures Answered(w, LoopDo(w, e, msgChan, cancelled, action), h)
  {
    var e' := LoopDo(w, e, msgChan, cancelled, action);
    if action.TestRule? && e.loop.entry == h {
      TestKeepsAnswered(w, e, msgChan, cancelled, h);
    } else if (action.RenderFails? || action.Spawn?) && e.loop.entry == h {
      AttemptKeepsAnswered(w, e, msgChan, cancelled, action, h);
    } else if h < |e.history| && !(action.Snapshot? && e.loop.entry == h) {
      AnsweredStays(w, e, e', h);
    }
  }

  lemma MoveKeepsAnswered(w: World, e: EngineState, e': EngineState, k: nat, h: nat)
    requires Answered(w, e, h) && Provenance.WorkerMove(e, e', k) && h < |e.history|
    ensures Answered(w, e', h)
  {
    AnsweredStays(w, e, e', h);
  }

  lemma EffectKeepsAnswered(w: World, e: EngineState, effect: Effect, h: nat)
    requires Answered(w, e, h) && (effect.StartLoop? ==> e.loop.NotStarted?) && h < |e.history|
    ensures Answered(w, ApplyToEngine(e, effect), h)
  {
    AnsweredStays(w, e, ApplyToEngine(e, effect), h);
  }

  lemma StepKeepsAnswered(w: World, s: State, step: Step, h: nat)
    requires Reachable(w, s) && Answered(w, s.eng, h) && Enabled(s, step)
    ensures Answered(w, Do(w, s, step).eng, h)
  {
    Provenance.InvReachable(w, s);
    match step
    case Process(action) => LoopKeepsAnswered(w, s.eng, s.net.msgChan, s.flags.cancelled, action, h);
    case Work(k, action) =>
      Provenance.WorkerIsMove(s.eng, s.flags, k, action);
      if h < |s.eng.history| {
        MoveKeepsAnswered(w, s.eng, WorkerDo(s.eng, s.flags, k, action), k, h);
      }
    case Call(t, action) =>
      Shutdown.InvReachable(w, s);
      Shutdown.CallKeepsInv(s, t, action);
      if h < |s.eng.history| {
        EffectKeepsAnswered(w, s.eng, CallerEffect(s.flags, s.callers[t], action), h);
      }
    case _ =>
  }

  /** When the loop is through with a received message that does not carry the origin header, there is
      a rule set for which exactly those rules have an attempt for it whose conditions it meets. */
  lemma EveryMatchIsAttempted(w: World, s: State, h: nat)
    requires Reachable(w, s) && h < |s.eng.history| && s.eng.history[h].ReceivedEntry?
    requires var m := s.eng.history[h].packet.msg;
             "x-chitchat-origin" in m.headers ==> m.headers["x-chitchat-origin"] == Nil
    requires !IsHandling(s.eng.loop, h)
    ensures var m := s.eng.history[h].packet.msg;
            exists g: nat :: g < |s.eng.generations| && forall i: nat :: i < |s.eng.generations[g]| ==>
              var t := s.eng.generations[g][i].trigger;
              (HasAttempt(s.eng, h, g, i) <==>
                 && (t.queue == "" || t.queue == m.queue) && (t.routingKey == "" || t.routingKey == m.routingKey)
                 && forall j :: 0 <= j < |t.jsonPathRules| ==> w.eval(m.body, t.jsonPathRules[j]))
  {
    var inv := (u: State) => Answered(w, u.eng, h);
    forall u, step | Reachable(w, u) && inv(u) && Enabled(u, step) ensures inv(Do(w, u, step)) {
      StepKeepsAnswered(w, u, step, h);
    }
    KeptFromStart(w, inv, s);
    assert ORIGIN_HEADER == "x-chitchat-origin";
    var m := s.eng.history[h].packet.msg;
    var g: nat :| g < |s.eng.generations| && Covered(w, s.eng, h, m, g, |s.eng.generations[g]|);
    forall i: nat | i < |s.eng.generations[g]|
      ensures HasAttempt(s.eng, h, g, i) <==> MatchesRule(w.eval, s.eng.generations[g][i], m)
    {
      if k :| 0 <= k < |s.eng.attempts| && s.eng.attempts[k].entry == h && s.eng.attempts[k].generation == g && s.eng.attempts[k].rule == i {
        Provenance.AttemptsMeetConditions(w, s, k);
      }
    }
  }
}
