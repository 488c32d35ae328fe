/** The long-poll protocol of pkg/spy/server.go as a transition system: any number of requests with
    wait_for (waitForMessages inside handleMessages) beside any number of recorders and clearers.
    One step is one critical section of the buffer's lock, or one choice of a select. */
module WaitProtocol {
  import opened Basics
  import opened Config
  import opened Spy

  datatype Setting = Setting(get: Lookup, capacity: nat)

  datatype Status = OK | RequestTimeout

  /** Where a request is: in the loop of waitForMessages, then in the handler. */
  datatype Phase =
    | LoopTop
    | Grabbed(channel: nat)
    | Parked(channel: nat, found: seq<CapturedMessage>)
    | Expired(channel: nat)
    | Finished(found: seq<CapturedMessage>, ok: bool)
    | Responded(status: Status, messages: seq<CapturedMessage>)
    | Dropped

  /** A request for at least n messages; `since` is the buffer version at its arrival and `gone`
      says that the client went away. */
  datatype Waiter = Waiter(filter: Filter, n: nat, since: nat, gone: bool, phase: Phase)

  /** The buffer and its change channels. Channel g was or will be closed when version g of the
      buffer is replaced; `closes[g]` counts how often that happened. The last channel is current. */
  datatype State = State(
    log: Log, versions: seq<seq<CapturedMessage>>, closes: seq<nat>, waiters: seq<Waiter>)

  datatype Action = Grab | Look | Wake | Expire | LookAgain | GiveUp | Reply

  datatype Step =
    | Record(msg: Message, now: int) | Clear
    | Arrive(filter: Filter, n: nat) | Disconnect(i: nat)
    | Act(i: nat, action: Action)

  function Init(): State {
    State(Log([], 0), [[]], [0], [])
  }

  function Unlimited(f: Filter): Filter {
    f.(limit := 0)
  }

  predicate Sane(s: State) {
    s.versions != [] && s.closes != []
  }

  /** The buffer changes: close the current channel and make a new one. */
  function Notified(x: Setting, s: State, log: Log): State
    requires Sane(s)
  {
    var last := |s.closes| - 1;
    s.(log := log, versions := s.versions + [Window(log, x.capacity)],
       closes := s.closes[last := s.closes[last] + 1] + [0])
  }

  predicate CanAct(s: State, w: Waiter, action: Action) {
    match action
    case Grab => w.phase.LoopTop?
    case Look => w.phase.Grabbed?
    case Wake => w.phase.Parked? && w.phase.channel < |s.closes| && s.closes[w.phase.channel] > 0
    case Expire => w.phase.Parked?
    case LookAgain => w.phase.Expired?
    case GiveUp => w.phase.Parked? && w.gone
    case Reply => w.phase.Finished?
  }

  function NextPhase(x: Setting, s: State, w: Waiter, action: Action): Phase
    requires Sane(s) && CanAct(s, w, action)
  {
    match action
    case Grab => Grabbed(|s.closes| - 1)
    case Look =>
      var found := Answer(x.get, Unlimited(w.filter), Window(s.log, x.capacity));
      if |found| >= w.n then Finished(found, true) else Parked(w.phase.channel, found)
    case Wake => LoopTop
    case Expire => Expired(w.phase.channel)
    case LookAgain => Finished(Answer(x.get, Unlimited(w.filter), Window(s.log, x.capacity)), false)
    case GiveUp => Finished(w.phase.found, false)
    case Reply =>
      if !w.phase.ok && w.gone then Dropped
      else Responded(if w.phase.ok then OK else RequestTimeout, Cut(w.filter, w.phase.found))
  }

  /** The handler's own limit, applied to what the unlimited wait returned. */
  function Cut(f: Filter, found: seq<CapturedMessage>): seq<CapturedMessage> {
    if f.limit > 0 && |found| > f.limit then found[|found| - f.limit..] else found
  }

  predicate Enabled(x: Setting, s: State, step: Step) {
    Sane(s) &&
    match step
    case Record(_, _) => true
    case Clear => true
    case Arrive(_, _) => true
    case Disconnect(i) => i < |s.waiters|
    case Act(i, action) => i < |s.waiters| && CanAct(s, s.waiters[i], action)
  }

  function Do(x: Setting, s: State, step: Step): State
    requires Enabled(x, s, step)
  {
    match step
    case Record(msg, now) => Notified(x, s, RecordedIn(s.log, msg, now))
    case Clear => Notified(x, s, ClearedLog(s.log))
    case Arrive(f, n) => s.(waiters := s.waiters + [Waiter(f, n, |s.versions| - 1, false, LoopTop)])
    case Disconnect(i) => s.(waiters := s.waiters[i := s.waiters[i].(gone := true)])
    case Act(i, action) =>
      var w := s.waiters[i];
      s.(waiters := s.waiters[i := w.(phase := NextPhase(x, s, w, action))])
  }

  ghost predicate Run(x: Setting, s: State, steps: seq<Step>, t: State)
    decreases steps
  {
    if steps == [] then s == t
    else Enabled(x, s, steps[0]) && Run(x, Do(x, s, steps[0]), steps[1..], t)
  }

  ghost predicate Reachable(x: Setting, s: State) {
    exists steps :: Run(x, Init(), steps, s)
  }

  // The invariant

  /** The versions are the buffer's contents over time, and every superseded channel was closed once. */
  ghost predicate BufferInv(x: Setting, s: State) {
    && ValidLog(s.log)
    && |s.versions| == |s.closes| > 0
    && s.versions[|s.versions| - 1] == Window(s.log, x.capacity)
    && (forall g :: 0 <= g < |s.versions| ==> |s.versions[g]| <= x.capacity)
    && forall g :: 0 <= g < |s.closes| ==> s.closes[g] == if g == |s.closes| - 1 then 0 else 1
  }

  /** The unlimited matches of a version. */
  function Found(x: Setting, w: Waiter, version: seq<CapturedMessage>): seq<CapturedMessage> {
    Answer(x.get, Unlimited(w.filter), version)
  }

  /** Some version since the request's arrival has these matches. */
  ghost predicate Seen(x: Setting, w: Waiter, versions: seq<seq<CapturedMessage>>, found: seq<CapturedMessage>) {
    exists g :: w.since <= g < |versions| && found == Found(x, w, versions[g])
  }

  /** Some version since the request's arrival did not have enough matches. */
  ghost predicate FellShort(x: Setting, w: Waiter, versions: seq<seq<CapturedMessage>>) {
    exists g :: w.since <= g < |versions| && |Found(x, w, versions[g])| < w.n
  }

  /** The version with these matches is, or comes after, one without enough matches. */
  ghost predicate SeenAfterShort(x: Setting, w: Waiter, versions: seq<seq<CapturedMessage>>, found: seq<CapturedMessage>) {
    exists g, h :: w.since <= g <= h < |versions| && |Found(x, w, versions[g])| < w.n && found == Found(x, w, versions[h])
  }

  /** The messages are the cut matches of a version with enough of them. */
  ghost predicate AnsweredInTime(x: Setting, w: Waiter, versions: seq<seq<CapturedMessage>>, messages: seq<CapturedMessage>) {
    exists h :: w.since <= h < |versions| && |Found(x, w, versions[h])| >= w.n
                && messages == Cut(w.filter, Found(x, w, versions[h]))
  }

  /** The messages are the cut matches of a version that is, or comes after, one without enough. */
  ghost predicate AnsweredLate(x: Setting, w: Waiter, versions: seq<seq<CapturedMessage>>, messages: seq<CapturedMessage>) {
    exists g, h :: w.since <= g <= h < |versions| && |Found(x, w, versions[g])| < w.n
                   && messages == Cut(w.filter, Found(x, w, versions[h]))
  }

  ghost predicate PhaseInv(x: Setting, w: Waiter, versions: seq<seq<CapturedMessage>>) {
    match w.phase
    case LoopTop => true
    case Grabbed(c) => w.since <= c < |versions|
    case Parked(c, found) =>
      && w.since <= c < |versions|
      && |found| < w.n && Seen(x, w, versions, found)
      && (c == |versions| - 1 ==> found == Found(x, w, versions[c]))
    case Expired(c) =>
      && w.since <= c < |versions| && FellShort(x, w, versions)
      && (c == |versions| - 1 ==> |Found(x, w, versions[c])| < w.n)
    case Finished(found, ok) =>
      if ok then Seen(x, w, versions, found) && |found| >= w.n else SeenAfterShort(x, w, versions, found)
    case Responded(status, messages) =>
      if status == OK then AnsweredInTime(x, w, versions, messages) else AnsweredLate(x, w, versions, messages)
    case Dropped => true
  }

  ghost predicate WaitersInv(x: Setting, s: State) {
    forall i :: 0 <= i < |s.waiters| ==> s.waiters[i].since < |s.versions| && PhaseInv(x, s.waiters[i], s.versions)
  }

  ghost predicate Inv(x: Setting, s: State) {
    BufferInv(x, s) && WaitersInv(x, s)
  }

  /** A new version hides nothing that was seen. */
  lemma PhaseInvGrows(x: Setting, w: Waiter, versions: seq<seq<CapturedMessage>>, more: seq<CapturedMessage>)
    requires PhaseInv(x, w, versions)
    ensures PhaseInv(x, w, versions + [more])
  {
    var next := versions + [more];
    forall found | Seen(x, w, versions, found) ensures Seen(x, w, next, found) {
      var g :| w.since <= g < |versions| && found == Found(x, w, versions[g]);
      assert found == Found(x, w, next[g]);
    }
    forall found | SeenAfterShort(x, w, versions, found) ensures SeenAfterShort(x, w, next, found) {
      var g, h :| w.since <= g <= h < |versions| && |Found(x, w, versions[g])| < w.n && found == Found(x, w, versions[h]);
      assert |Found(x, w, next[g])| < w.n && found == Found(x, w, next[h]);
    }
    if FellShort(x, w, versions) {
      var g :| w.since <= g < |versions| && |Found(x, w, versions[g])| < w.n;
      assert |Found(x, w, next[g])| < w.n;
    }
    if w.phase.Responded? {
      AnswerStays(x, w, versions, more, w.phase.messages);
    }
  }

  lemma AnswerStays(x: Setting, w: Waiter, versions: seq<seq<CapturedMessage>>, more: seq<CapturedMessage>, messages: seq<CapturedMessage>)
    ensures AnsweredInTime(x, w, versions, messages) ==> AnsweredInTime(x, w, versions + [more], messages)
    ensures AnsweredLate(x, w, versions, messages) ==> AnsweredLate(x, w, versions + [more], messages)
  {
    var next := versions + [more];
    if AnsweredInTime(x, w, versions, messages) {
      var h :| w.since <= h < |versions| && |Found(x, w, versions[h])| >= w.n
               && messages == Cut(w.filter, Found(x, w, versions[h]));
      assert next[h] == versions[h];
    }
    if AnsweredLate(x, w, versions, messages) {
      var g, h :| w.since <= g <= h < |versions| && |Found(x, w, versions[g])| < w.n
                  && messages == Cut(w.filter, Found(x, w, versions[h]));
      assert next[g] == versions[g] && next[h] == versions[h];
    }
  }

  lemma NotifiedKeepsInv(x: Setting, s: State, log: Log)
    requires Inv(x, s) && ValidLog(log)
    ensures Inv(x, Notified(x, s, log))
  {
    var t := Notified(x, s, log);
    WindowMeaning(log, x.capacity);
    forall i | 0 <= i < |t.waiters| ensures PhaseInv(x, t.waiters[i], t.versions) {
      PhaseInvGrows(x, s.waiters[i], s.versions, Window(log, x.capacity));
    }
  }

  /** The phase does not matter for what was seen. */
  lemma SameSeen(x: Setting, w: Waiter, next: Waiter, versions: seq<seq<CapturedMessage>>)
    requires next.filter == w.filter && next.n == w.n && next.since == w.since
    ensures forall found :: Seen(x, next, versions, found) <==> Seen(x, w, versions, found)
    ensures forall found :: SeenAfterShort(x, next, versions, found) <==> SeenAfterShort(x, w, versions, found)
    ensures FellShort(x, next, versions) <==> FellShort(x, w, versions)
    ensures forall found :: AnsweredInTime(x, next, versions, found) <==> AnsweredInTime(x, w, versions, found)
    ensures forall found :: AnsweredLate(x, next, versions, found) <==> AnsweredLate(x, w, versions, found)
  {
    assert forall version :: Found(x, next, version) == Found(x, w, version);
  }

  /** A reply cuts what was found. */
  lemma ReplyAnswers(x: Setting, w: Waiter, versions: seq<seq<CapturedMessage>>, found: seq<CapturedMessage>)
    ensures Seen(x, w, versions, found) && |found| >= w.n ==> AnsweredInTime(x, w, versions, Cut(w.filter, found))
    ensures SeenAfterShort(x, w, versions, found) ==> AnsweredLate(x, w, versions, Cut(w.filter, found))
  {
    if Seen(x, w, versions, found) && |found| >= w.n {
      var h :| w.since <= h < |versions| && found == Found(x, w, versions[h]);
      assert |Found(x, w, versions[h])| >= w.n;
    }
    if SeenAfterShort(x, w, versions, found) {
      var g, h :| w.since <= g <= h < |versions| && |Found(x, w, versions[g])| < w.n && found == Found(x, w, versions[h]);
      assert Cut(w.filter, found) == Cut(w.filter, Found(x, w, versions[h]));
    }
  }

  /** A look at the buffer sees the last version. */
  lemma LookSeesLast(x: Setting, w: Waiter, versions: seq<seq<CapturedMessage>>)
    requires w.since < |versions|
    ensures Seen(x, w, versions, Found(x, w, versions[|versions| - 1]))
    ensures FellShort(x, w, versions) ==> SeenAfterShort(x, w, versions, Found(x, w, versions[|versions| - 1]))
  {
    if FellShort(x, w, versions) {
      var g :| w.since <= g < |versions| && |Found(x, w, versions[g])| < w.n;
      assert g <= |versions| - 1;
    }
  }

  /** Matches that were seen and too few fell short. */
  lemma TooFewFellShort(x: Setting, w: Waiter, versions: seq<seq<CapturedMessage>>, found: seq<CapturedMessage>)
    requires Seen(x, w, versions, found) && |found| < w.n
    ensures FellShort(x, w, versions) && SeenAfterShort(x, w, versions, found)
  {
    var g :| w.since <= g < |versions| && found == Found(x, w, versions[g]);
    assert |Found(x, w, versions[g])| < w.n;
  }

  lemma ParkedKeepsPhaseInv(x: Setting, s: State, w: Waiter, action: Action)
    requires BufferInv(x, s) && CanAct(s, w, action) && w.phase.Parked?
    requires w.since < |s.versions| && PhaseInv(x, w, s.versions)
    ensures PhaseInv(x, w.(phase := NextPhase(x, s, w, action)), s.versions)
  {
    SameSeen(x, w, w.(phase := NextPhase(x, s, w, action)), s.versions);
    TooFewFellShort(x, w, s.versions, w.phase.found);
  }

  lemma ReplyKeepsPhaseInv(x: Setting, s: State, w: Waiter)
    requires BufferInv(x, s) && CanAct(s, w, Reply)
    requires w.since < |s.versions| && PhaseInv(x, w, s.versions)
    ensures PhaseInv(x, w.(phase := NextPhase(x, s, w, Reply)), s.versions)
  {
    SameSeen(x, w, w.(phase := NextPhase(x, s, w, Reply)), s.versions);
    ReplyAnswers(x, w, s.versions, w.phase.found);
  }

  lemma LookKeepsPhaseInv(x: Setting, s: State, w: Waiter, action: Action)
    requires BufferInv(x, s) && CanAct(s, w, action) && !w.phase.Parked? && !w.phase.Finished?
    requires w.since < |s.versions| && PhaseInv(x, w, s.versions)
    ensures PhaseInv(x, w.(phase := NextPhase(x, s, w, action)), s.versions)
  {
    SameSeen(x, w, w.(phase := NextPhase(x, s, w, action)), s.versions);
    LookSeesLast(x, w, s.versions);
  }

  lemma ActKeepsPhaseInv(x: Setting, s: State, w: Waiter, action: Action)
    requires BufferInv(x, s) && CanAct(s, w, action)
    requires w.since < |s.versions| && PhaseInv(x, w, s.versions)
    ensures PhaseInv(x, w.(phase := NextPhase(x, s, w, action)), s.versions)
  {
    if w.phase.Parked? {
      ParkedKeepsPhaseInv(x, s, w, action);
    } else if w.phase.Finished? {
      ReplyKeepsPhaseInv(x, s, w);
    } else {
      LookKeepsPhaseInv(x, s, w, action);
    }
  }

  lemma InvStep(x: Setting, s: State, step: Step)
    requires Inv(x, s) && Enabled(x, s, step)
    ensures Inv(x, Do(x, s, step))
  {
    match step
    case Record(msg, now) => NotifiedKeepsInv(x, s, RecordedIn(s.log, msg, now));
    case Clear => NotifiedKeepsInv(x, s, ClearedLog(s.log));
    case Arrive(_, _) =>
    case Disconnect(i) => GoneKeepsPhaseInv(x, s.waiters[i], s.versions);
    case Act(i, action) => ActKeepsPhaseInv(x, s, s.waiters[i], action);
  }

  lemma GoneKeepsPhaseInv(x: Setting, w: Waiter, versions: seq<seq<CapturedMessage>>)
    requires PhaseInv(x, w, versions)
    ensures PhaseInv(x, w.(gone := true), versions)
  {
    SameSeen(x, w, w.(gone := true), versions);
  }

  lemma {:induction false} InvRun(x: Setting, s: State, steps: seq<Step>, t: State)
    requires Inv(x, s) && Run(x, s, steps, t)
    ensures Inv(x, t)
    decreases steps
  {
    if steps != [] {
      InvStep(x, s, steps[0]);
      InvRun(x, Do(x, s, steps[0]), steps[1..], t);
    }
  }

  lemma InvFresh(x: Setting, s: State)
    requires s.log.history == [] && s.log.cleared == 0 && s.waiters == []
    requires |s.versions| == |s.closes| == 1 && s.versions[0] == [] && s.closes[0] == 0
    ensures Inv(x, s)
  {
    assert Start(s.log, x.capacity) == 0;
    assert Window(s.log, x.capacity) == [];
  }

  lemma InvReachable(x: Setting, s: State)
    requires Reachable(x, s)
    ensures Inv(x, s)
  {
    var steps :| Run(x, Init(), steps, s);
    InvFresh(x, Init());
    InvRun(x, Init(), steps, s);
  }

  // Channels

  /** Every change channel is closed at most once, and exactly the superseded ones are closed. */
  lemma ChannelsCloseOnce(x: Setting, s: State, g: nat)
    requires Reachable(x, s) && g < |s.closes|
    ensures s.closes[g] <= 1 && (s.closes[g] == 1 <==> g < |s.closes| - 1)
  {
    InvReachable(x, s);
  }

  /** No lost wakeup: while the channel that a request is parked on is open, the buffer holds fewer
      matches than it waits for. */
  lemma NoLostWakeup(x: Setting, s: State, i: nat)
    requires Reachable(x, s) && i < |s.waiters| && s.waiters[i].phase.Parked?
    ensures var w := s.waiters[i];
            && w.phase.channel < |s.closes|
            && (s.closes[w.phase.channel] == 0 ==>
                  |Answer(x.get, w.filter.(limit := 0), Window(s.log, x.capacity))| < w.n)
  {
    InvReachable(x, s);
  }

  /** So a parked request for which the buffer has enough can wake up, and unless the buffer changes
      again it answers with status 200 after four more actions of its own. */
  lemma ParkedRequestIsServed(x: Setting, s: State, i: nat)
    requires Reachable(x, s) && i < |s.waiters| && s.waiters[i].phase.Parked?
    requires |Answer(x.get, s.waiters[i].filter.(limit := 0), Window(s.log, x.capacity))| >= s.waiters[i].n
    ensures Enabled(x, s, Act(i, Wake))
    ensures exists t: State :: i < |t.waiters| && Run(x, s, [Act(i, Wake), Act(i, Grab), Act(i, Look), Act(i, Reply)], t)
                        && t.waiters[i].phase == Responded(OK, Answer(x.get, s.waiters[i].filter, Window(s.log, x.capacity)))
  {
    InvReachable(x, s);
    var w := s.waiters[i];
    var a := Do(x, s, Act(i, Wake));
    var b := Do(x, a, Act(i, Grab));
    var c := Do(x, b, Act(i, Look));
    var d := Do(x, c, Act(i, Reply));
    FourSteps(x, s, a, b, c, d, Act(i, Wake), Act(i, Grab), Act(i, Look), Act(i, Reply));
    CutIsLimited(x, w.filter, Window(s.log, x.capacity));
  }

  lemma {:induction false} RunOneMore(x: Setting, s: State, steps: seq<Step>, t: State, step: Step)
    requires Run(x, s, steps, t) && Enabled(x, t, step)
    ensures Run(x, s, steps + [step], Do(x, t, step))
    decreases steps
  {
    if steps == [] {
      assert [step][1..] == [];
    } else {
      assert (steps + [step])[1..] == steps[1..] + [step];
      RunOneMore(x, Do(x, s, steps[0]), steps[1..], t, step);
    }
  }

  lemma FourSteps(x: Setting, s: State, a: State, b: State, c: State, d: State, s0: Step, s1: Step, s2: Step, s3: Step)
    requires Enabled(x, s, s0) && Do(x, s, s0) == a && Enabled(x, a, s1) && Do(x, a, s1) == b
    requires Enabled(x, b, s2) && Do(x, b, s2) == c && Enabled(x, c, s3) && Do(x, c, s3) == d
    ensures Run(x, s, [s0, s1, s2, s3], d)
  {
    assert Run(x, s, [], s);
    RunOneMore(x, s, [], s, s0);
    RunOneMore(x, s, [s0], a, s1);
    RunOneMore(x, s, [s0] + [s1], b, s2);
    RunOneMore(x, s, [s0] + [s1] + [s2], c, s3);
    assert [] + [s0] == [s0];
    assert [s0] + [s1] + [s2] + [s3] == [s0, s1, s2, s3];
  }

  // Answers

  lemma {:induction false} SelectAgrees(p: CapturedMessage -> bool, q: CapturedMessage -> bool, ms: seq<CapturedMessage>)
    requires forall m :: p(m) <==> q(m)
    ensures Select(p, ms) == Select(q, ms)
  {
    if ms != [] {
      SelectAgrees(p, q, ms[..|ms| - 1]);
    }
  }

  /** Stripping the limit before the wait and cutting afterwards is the limited query. */
  lemma CutIsLimited(x: Setting, f: Filter, window: seq<CapturedMessage>)
    ensures Cut(f, Answer(x.get, f.(limit := 0), window)) == Answer(x.get, f, window)
  {
    SelectAgrees(Matching(x.get, Unlimited(f)), Matching(x.get, f), window);
  }

  /** A response is the limited query of one single version of the buffer that was current during
      the request; with status 200 that version has at least n matches. */
  lemma AnswerIsOneSnapshot(x: Setting, s: State, i: nat)
    requires Reachable(x, s) && i < |s.waiters| && s.waiters[i].phase.Responded?
    ensures var w := s.waiters[i];
            exists g :: w.since <= g < |s.versions|
                        && w.phase.messages == Answer(x.get, w.filter, s.versions[g])
                        && (w.phase.status == OK ==> |Answer(x.get, w.filter.(limit := 0), s.versions[g])| >= w.n)
  {
    InvReachable(x, s);
    var w := s.waiters[i];
    var h :| w.since <= h < |s.versions| && w.phase.messages == Cut(w.filter, Found(x, w, s.versions[h]))
             && (w.phase.status == OK ==> |Found(x, w, s.versions[h])| >= w.n);
    CutIsLimited(x, w.filter, s.versions[h]);
    assert w.phase.messages == Answer(x.get, w.filter, s.versions[h]);
  }

  /** A request for more messages than the buffer can hold is never answered with status 200. */
  lemma CannotWaitForMoreThanCapacity(x: Setting, s: State, i: nat)
    requires Reachable(x, s) && i < |s.waiters| && s.waiters[i].phase.Responded? && s.waiters[i].phase.status == OK
    ensures s.waiters[i].n <= x.capacity
  {
    InvReachable(x, s);
    AnswerIsOneSnapshot(x, s, i);
    var w := s.waiters[i];
    var g :| w.since <= g < |s.versions| && |Answer(x.get, Unlimited(w.filter), s.versions[g])| >= w.n;
    AnswerBound(x.get, Unlimited(w.filter), s.versions[g]);
  }

  // Clients that go away

  predicate HasLeft(s: State, i: nat) {
    i < |s.waiters| && s.waiters[i].gone
    && (s.waiters[i].phase.Dropped? || (s.waiters[i].phase.Finished? && !s.waiters[i].phase.ok))
  }

  lemma {:induction false} LeftForGood(x: Setting, s: State, steps: seq<Step>, u: State, i: nat)
    requires HasLeft(s, i) && Run(x, s, steps, u)
    ensures HasLeft(u, i)
    decreases steps
  {
    if steps != [] {
      LeftForGood(x, Do(x, s, steps[0]), steps[1..], u, i);
    }
  }

  /** A request that leaves its wait for another reason than a change of the buffer or its timer never
      gets a response: its client is gone. */
  lemma LeaverIsNotAnswered(x: Setting, s: State, i: nat, action: Action, steps: seq<Step>, u: State)
    requires Enabled(x, s, Act(i, action)) && s.waiters[i].phase.Parked? && !action.Wake? && !action.Expire?
    requires Run(x, Do(x, s, Act(i, action)), steps, u)
    ensures i < |u.waiters| && !u.waiters[i].phase.Responded?
  {
    LeftForGood(x, Do(x, s, Act(i, action)), steps, u, i);
  }

  /** A request whose timer has fired answers with another look at the buffer. While the channel it
      was parked on is open, that look finds too few messages, as a 408 is meant to say; it finds
      enough exactly if the channel has been closed meanwhile and the buffer now holds enough. */
  lemma TimeoutCarriesEnoughExactlyIfOvertaken(x: Setting, s: State, i: nat)
    requires Reachable(x, s) && i < |s.waiters| && s.waiters[i].phase.Expired?
    ensures var w, now := s.waiters[i], Answer(x.get, s.waiters[i].filter.(limit := 0), Window(s.log, x.capacity));
            && w.phase.channel < |s.closes|
            && (s.closes[w.phase.channel] == 0 ==> |now| < w.n)
            && Enabled(x, s, Act(i, LookAgain))
            && var after := Do(x, s, Act(i, LookAgain)).waiters[i].phase;
               && after == Finished(now, false)
               && (|after.found| >= w.n <==> s.closes[w.phase.channel] > 0 && |now| >= w.n)
  {
    InvReachable(x, s);
  }

  /** A 408 returns the matches of one version of the buffer, which has too few of them or comes
      after one, current during the request, that had too few. */
  lemma TimeoutMeansFellShort(x: Setting, s: State, i: nat)
    requires Reachable(x, s) && i < |s.waiters| && s.waiters[i].phase.Responded?
    requires s.waiters[i].phase.status == RequestTimeout
    ensures var w := s.waiters[i];
            exists g, h :: w.since <= g <= h < |s.versions|
                           && |Answer(x.get, w.filter.(limit := 0), s.versions[g])| < w.n
                           && w.phase.messages == Answer(x.get, w.filter, s.versions[h])
                           && (|Answer(x.get, w.filter.(limit := 0), s.versions[h])| >= w.n ==> g < h)
  {
    InvReachable(x, s);
    var w := s.waiters[i];
    LateAnswer(x, w, s.versions, w.phase.messages);
  }

  lemma LateAnswer(x: Setting, w: Waiter, versions: seq<seq<CapturedMessage>>, messages: seq<CapturedMessage>)
    requires AnsweredLate(x, w, versions, messages)
    ensures exists g, h :: w.since <= g <= h < |versions|
                           && |Answer(x.get, w.filter.(limit := 0), versions[g])| < w.n
                           && messages == Answer(x.get, w.filter, versions[h])
                           && (|Answer(x.get, w.filter.(limit := 0), versions[h])| >= w.n ==> g < h)
  {
    var g, h :| w.since <= g <= h < |versions| && |Found(x, w, versions[g])| < w.n
                && messages == Cut(w.filter, Found(x, w, versions[h]));
    CutIsLimited(x, w.filter, versions[h]);
    assert |Answer(x.get, Unlimited(w.filter), versions[g])| < w.n && messages == Answer(x.get, w.filter, versions[h]);
  }

  /** The latter does happen: the timer can win against a message that arrives at the same time,
      and the look after it then finds enough. */
  lemma TimeoutMayCarryEnough(x: Setting, msg: Message) returns (s: State)
    requires x.capacity > 0
    ensures Reachable(x, s) && |s.waiters| == 1 && s.waiters[0].n == 1
    ensures s.waiters[0].phase.Responded? && s.waiters[0].phase.status == RequestTimeout
    ensures |s.waiters[0].phase.messages| == 1
  {
    var d := RequestParks(x, msg);
    s := RequestExpires(x, Captured(msg, 1, 0), d);
  }

  lemma Take(x: Setting, s: State, step: Step) returns (t: State)
    requires Reachable(x, s) && Enabled(x, s, step)
    ensures t == Do(x, s, step) && Reachable(x, t)
  {
    t := Do(x, s, step);
    var steps :| Run(x, Init(), steps, s);
    RunOneMore(x, Init(), steps, s, step);
  }

  /** A request for one message, any message, is parked when the first message is recorded. */
  ghost predicate IsOvertaken(s: State, m: CapturedMessage) {
    && s.log.history == [m] && s.log.cleared == 0 && s.versions != [] && s.closes != []
    && s.waiters == [Waiter(EVERYTHING, 1, 0, false, Parked(0, []))]
  }

  lemma RequestParks(x: Setting, msg: Message) returns (d: State)
    requires x.capacity > 0
    ensures Reachable(x, d) && IsOvertaken(d, Captured(msg, 1, 0))
  {
    assert Run(x, Init(), [], Init());
    d := Take(x, Init(), Arrive(EVERYTHING, 1));
    d := Take(x, d, Act(0, Grab));
    d := Take(x, d, Act(0, Look));
    d := Take(x, d, Record(msg, 0));
  }

  lemma OnlyMessageMatches(x: Setting, log: Log, f: Filter, m: CapturedMessage)
    requires x.capacity > 0 && log.history == [m] && log.cleared == 0 && f == EVERYTHING
    ensures Answer(x.get, f, Window(log, x.capacity)) == [m]
  {
    assert Window(log, x.capacity) == [m];
    SelectSnoc(Matching(x.get, f), [], m);
    assert [] + [m] == [m];
  }

  lemma RequestExpires(x: Setting, m: CapturedMessage, d: State) returns (s: State)
    requires x.capacity > 0 && Reachable(x, d) && IsOvertaken(d, m)
    ensures Reachable(x, s)
    ensures s.waiters == [Waiter(EVERYTHING, 1, 0, false, Responded(RequestTimeout, [m]))]
  {
    OnlyMessageMatches(x, d.log, Unlimited(EVERYTHING), m);
    s := Take(x, d, Act(0, Expire));
    s := Take(x, s, Act(0, LookAgain));
    s := Take(x, s, Act(0, Reply));
  }

  // The wait loop ends

  /** How many more actions a request can take while the buffer does not change. */
  function Rank(w: Waiter, last: int): nat {
    match w.phase
    case LoopTop => 5
    case Grabbed(c) => if c < last then 7 else 4
    case Parked(c, _) => if c < last then 6 else 3
    case Expired(_) => 2
    case Finished(_, _) => 1
    case Responded(_, _) => 0
    case Dropped => 0
  }

  function IsChange(step: Step): nat {
    if step.Record? || step.Clear? then 1 else 0
  }

  function IsActionOf(i: nat, step: Step): nat {
    if step.Act? && step.i == i then 1 else 0
  }

  function Changes(steps: seq<Step>): nat {
    if steps == [] then 0 else IsChange(steps[0]) + Changes(steps[1..])
  }

  function ActionsOf(i: nat, steps: seq<Step>): nat {
    if steps == [] then 0 else IsActionOf(i, steps[0]) + ActionsOf(i, steps[1..])
  }

  lemma RankStep(x: Setting, s: State, step: Step, i: nat)
    requires Inv(x, s) && Enabled(x, s, step) && i < |s.waiters|
    ensures var t := Do(x, s, step);
            && i < |t.waiters|
            && Rank(t.waiters[i], |t.closes| - 1) + IsActionOf(i, step) <= Rank(s.waiters[i], |s.closes| - 1) + 3 * IsChange(step)
  {
    assert PhaseInv(x, s.waiters[i], s.versions);
  }

  lemma {:induction false} RankRun(x: Setting, s: State, steps: seq<Step>, t: State, i: nat)
    requires Inv(x, s) && Run(x, s, steps, t) && i < |s.waiters|
    ensures i < |t.waiters|
    ensures ActionsOf(i, steps) + Rank(t.waiters[i], |t.closes| - 1) <= Rank(s.waiters[i], |s.closes| - 1) + 3 * Changes(steps)
    decreases steps
  {
    if steps != [] {
      RankStep(x, s, steps[0], i);
      InvStep(x, s, steps[0]);
      RankRun(x, Do(x, s, steps[0]), steps[1..], t, i);
    }
  }

  /** A request takes at most five actions, and three more for each change of the buffer. */
  lemma WaitLoopIsBounded(x: Setting, s: State, steps: seq<Step>, t: State, i: nat)
    requires Reachable(x, s) && Run(x, s, steps, t) && i < |s.waiters| && s.waiters[i].phase.LoopTop?
    ensures ActionsOf(i, steps) <= 5 + 3 * Changes(steps)
  {
    InvReachable(x, s);
    RankRun(x, s, steps, t, i);
  }
}
