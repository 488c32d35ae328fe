/** Start and Reload under every interleaving: the active rules are those of the current
    configuration, and all its queues are consumed. A Reload extends the subscriptions first and
    replaces the rules in its last step, so every queue has its consumer before a rule waits for it,
    and a Reload that fails on the way leaves the rules and the configuration alone. */
module Coverage {
  import opened Basics
  import opened Config
  import opened Pipeline
  import Order
  import Shutdown

  ghost predicate CoveredBy(cfg: Config, queues: set<string>, todo: seq<string>) {
    forall q :: Desired(cfg, q) ==> q in queues || q in todo
  }

  /** The active rule set belongs to the current configuration, whose queues are all subscribed
      while the engine runs; a Start or Reload under way has exactly its rest left to do. */
  ghost predicate Inv(e: EngineState, f: Flags, callers: seq<Caller>) {
    && e.generations != [] && e.generations[|e.generations| - 1] == f.cfg.rules
    && (f.running ==> CoveredBy(f.cfg, f.subscribed, []))
    && (forall t :: 0 <= t < |callers| && callers[t].Starting? ==>
          CoveredBy(f.cfg, f.subscribed, callers[t].todo))
    && (forall t :: 0 <= t < |callers| && callers[t].Reloading? ==>
          CoveredBy(callers[t].cfg, f.subscribed, callers[t].todo))
  }

  /** Only the commit of a Reload replaces the configuration and loads rules. */
  lemma CallKeepsConfig(f: Flags, t: nat, pc: Caller, action: CallerAction)
    requires CallerReady(f, pc, action) && (InsideMu(pc) ==> f.mu == Some(t))
    ensures CallerFlags(f, t, pc, action).cfg != f.cfg || CallerEffect(f, pc, action).LoadRules? ==>
              && f.mu == Some(t) && action.Commit? && pc.Reloading? && CallerPc(f, pc, action).Returned?
              && CallerEffect(f, pc, action) == LoadRules(pc.cfg.rules) && CallerFlags(f, t, pc, action).cfg == pc.cfg
  {
  }

  /** What one caller's step does to its own remaining queues and to the running flag. */
  lemma CallProgress(f: Flags, t: nat, pc: Caller, action: CallerAction)
    requires CallerReady(f, pc, action)
    ensures var f', pc' := CallerFlags(f, t, pc, action), CallerPc(f, pc, action);
            && (action.Declare? && pc'.Starting? ==> IsDesiredOrder(f.cfg, pc'.todo))
            && (action.Declare? && pc'.Reloading? ==> IsDesiredOrder(pc'.cfg, pc'.todo))
            && (action.Commit? ==> IsSubscribing(pc) && pc.todo == [] && pc'.Returned?)
            && (!action.Commit? && f'.running ==> f.running)
            && (pc.Starting? && action.Commit? ==> f'.cfg == f.cfg)
  {
  }

  lemma SubscribeProgress(f: Flags, t: nat, pc: Caller, ok: bool, cfg: Config)
    requires CallerReady(f, pc, Subscribe(ok)) && CoveredBy(cfg, f.subscribed, pc.todo)
    requires IsSubscribing(CallerPc(f, pc, Subscribe(ok)))
    ensures CoveredBy(cfg, CallerFlags(f, t, pc, Subscribe(ok)).subscribed, CallerPc(f, pc, Subscribe(ok)).todo)
  {
    assert pc.todo == [pc.todo[0]] + pc.todo[1..];
  }

  lemma CallKeepsInv(s: State, t: nat, action: CallerAction)
    requires Shutdown.Inv(s) && Inv(s.eng, s.flags, s.callers) && t < |s.callers|
    requires CallerReady(s.flags, s.callers[t], action)
    ensures Inv(ApplyToEngine(s.eng, CallerEffect(s.flags, s.callers[t], action)),
                CallerFlags(s.flags, t, s.callers[t], action),
                s.callers[t := CallerPc(s.flags, s.callers[t], action)])
  {
    var f, pc := s.flags, s.callers[t];
    var pc' := CallerPc(f, pc, action);
    CallProgress(f, t, pc, action);
    CallKeepsConfig(f, t, pc, action);
    Order.CallSubscribes(f, t, pc, action);
    if action.Subscribe? && IsSubscribing(pc') {
      SubscribeProgress(f, t, pc, action.ok, if pc.Starting? then f.cfg else pc.cfg);
    }
    assert action.Subscribe? && IsSubscribing(pc') ==> pc'.Starting? == pc.Starting? && (pc.Reloading? ==> pc'.cfg == pc.cfg);
    assert IsSubscribing(pc') ==> action.Declare? || action.Subscribe?;
  }

  lemma InvReachable(w: World, s: State)
    requires Reachable(w, s)
    ensures Inv(s.eng, s.flags, s.callers)
  {
    var inv := (u: State) => Inv(u.eng, u.flags, u.callers);
    forall u, step | Reachable(w, u) && inv(u) && Enabled(u, step) ensures inv(Do(w, u, step)) {
      InvStep(w, u, step);
    }
    KeptFromStart(w, inv, s);
  }

  lemma OtherStepsKeepInv(w: World, s: State, step: Step)
    requires Inv(s.eng, s.flags, s.callers) && Enabled(s, step) && !step.Call?
    ensures var s' := Do(w, s, step); Inv(s'.eng, s'.flags, s'.callers)
  {
    assert Do(w, s, step).flags == s.flags && Do(w, s, step).eng.generations == s.eng.generations;
  }

  lemma InvStep(w: World, s: State, step: Step)
    requires Reachable(w, s) && Inv(s.eng, s.flags, s.callers) && Enabled(s, step)
    ensures var s' := Do(w, s, step); Inv(s'.eng, s'.flags, s'.callers)
  {
    if step.Call? {
      Shutdown.InvReachable(w, s);
      CallKeepsInv(s, step.t, step.call);
    } else {
      OtherStepsKeepInv(w, s, step);
    }
  }

  /** In every reachable state the rules that the process loop snapshots are those of the current
      configuration, and while the engine runs every queue that configuration wants is consumed. */
  lemma ActiveRulesAreCovered(w: World, s: State)
    requires Reachable(w, s)
    ensures s.eng.generations != [] && s.eng.generations[|s.eng.generations| - 1] == s.flags.cfg.rules
    ensures s.flags.running ==> forall q :: Desired(s.flags.cfg, q) ==> exists c :: c in s.net.consumers && c.queue == q
  {
    InvReachable(w, s);
    Order.InvReachable(w, s);
  }

  /** Rules, counters and configuration are replaced only when a Reload commits, all together;
      a Reload that fails or is refused has left them as they were, and so has every step of
      other callers while it held the mutex. Subscriptions are never dropped. */
  lemma ReloadIsAtomic(w: World, s: State, step: Step)
    requires Reachable(w, s) && Enabled(s, step)
    ensures var s' := Do(w, s, step);
            && s.flags.subscribed <= s'.flags.subscribed
            && (s'.eng.generations != s.eng.generations || s'.flags.cfg != s.flags.cfg ==>
                  && step.Call? && step.call.Commit? && s.callers[step.t].Reloading? && s.flags.mu == Some(step.t)
                  && s'.callers[step.t] == Returned(Reloaded)
                  && s'.flags.cfg == s.callers[step.t].cfg
                  && s'.eng.generations == s.eng.generations + [s'.flags.cfg.rules]
                  && s'.eng.counters == s.eng.counters + [ZeroCounters(s'.flags.cfg.rules)])
  {
    Shutdown.InvReachable(w, s);
    if step.Call? {
      CallKeepsConfig(s.flags, step.t, s.callers[step.t], step.call);
      Order.CallSubscribes(s.flags, step.t, s.callers[step.t], step.call);
    }
  }
}
