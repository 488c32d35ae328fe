/** The spy's messages, filters and sliding window of pkg/spy/server.go, as values. */
module Spy {
  import opened Basics
  import opened Config

  const DEFAULT_CAPACITY := 1000

  datatype CapturedMessage = CapturedMessage(
    seqNo: nat, timestamp: int, direction: Direction, queue: string, exchange: string, routingKey: string,
    rule: string, messageID: string, headers: Headers, raw: string)

  datatype BodyFilter = BodyFilter(path: string, value: Option<string>)

  /** Empty strings, Unset and 0 do not filter. */
  datatype Filter = Filter(
    queue: string, exchange: string, routingKey: string, direction: Direction, rule: string,
    headers: map<string, Option<string>>, body: seq<BodyFilter>, sinceSeq: nat, limit: int)

  /** gjson.GetBytes: the printed value at a path of a body, if there is one. */
  type Lookup = (string, string) -> Option<string>

  function PrintedForm(value: HeaderValue): string {
    match value
    case Nil => "<nil>"
    case Printed(text) => text
  }

  predicate HeaderMatches(headers: Headers, name: string, want: Option<string>) {
    name in headers && (want.Some? ==> PrintedForm(headers[name]) == want.value)
  }

  predicate BodyMatches(get: Lookup, raw: string, filter: BodyFilter) {
    raw != "" && get(raw, filter.path).Some? && (filter.value.Some? ==> get(raw, filter.path) == filter.value)
  }

  /** The part of Filter.matches that does not look at sequence numbers. */
  predicate Selects(get: Lookup, f: Filter, m: CapturedMessage) {
    && (f.queue != "" ==> m.queue == f.queue)
    && (f.exchange != "" ==> m.exchange == f.exchange)
    && (f.routingKey != "" ==> m.routingKey == f.routingKey)
    && (f.direction != Unset ==> m.direction == f.direction)
    && (f.rule != "" ==> m.rule == f.rule)
    && (forall name :: name in f.headers ==> HeaderMatches(m.headers, name, f.headers[name]))
    && (forall i :: 0 <= i < |f.body| ==> BodyMatches(get, m.raw, f.body[i]))
  }

  /** The filter without any condition. */
  const EVERYTHING := Filter("", "", "", Unset, "", map[], [], 0, 0)

  predicate Matches(get: Lookup, f: Filter, m: CapturedMessage) {
    (f.sinceSeq > 0 ==> m.seqNo > f.sinceSeq) && Selects(get, f, m)
  }

  function Matching(get: Lookup, f: Filter): CapturedMessage -> bool {
    m => Matches(get, f, m)
  }

  // What the buffer holds

  /** Everything recorded so far; `cleared` counts the messages recorded before the last clear. */
  datatype Log = Log(history: seq<CapturedMessage>, cleared: nat)

  ghost predicate ValidLog(log: Log) {
    log.cleared <= |log.history| && forall i :: 0 <= i < |log.history| ==> log.history[i].seqNo == i + 1
  }

  function Captured(msg: Message, seqNo: nat, now: int): CapturedMessage {
    CapturedMessage(
      seqNo, now, if msg.direction == Unset then Received else msg.direction, msg.queue, msg.exchange,
      msg.routingKey, msg.rule, msg.messageID, msg.headers, msg.body)
  }

  function RecordedIn(log: Log, msg: Message, now: int): Log {
    log.(history := log.history + [Captured(msg, |log.history| + 1, now)])
  }

  function ClearedLog(log: Log): Log {
    log.(cleared := |log.history|)
  }

  /** Where the last `capacity` messages since the last clear begin. */
  function Start(log: Log, capacity: nat): (n: nat)
    ensures n <= |log.history|
  {
    if |log.history| <= log.cleared then |log.history|
    else if |log.history| <= log.cleared + capacity then log.cleared
    else |log.history| - capacity
  }

  function Window(log: Log, capacity: nat): seq<CapturedMessage> {
    log.history[Start(log, capacity)..]
  }

  /** The last n elements, or all of them. */
  function LastOf<T>(xs: seq<T>, n: nat): seq<T> {
    if |xs| <= n then xs else xs[|xs| - n..]
  }

  /** Answering a query from the given window: the matching messages, the most recent `limit` of
      them if the limit is positive. */
  function Answer(get: Lookup, f: Filter, window: seq<CapturedMessage>): seq<CapturedMessage> {
    var found := Select(Matching(get, f), window);
    if f.limit > 0 then LastOf(found, f.limit) else found
  }

  lemma AnswerBound(get: Lookup, f: Filter, window: seq<CapturedMessage>)
    ensures |Answer(get, f, window)| <= |window|
  {
    if window != [] {
      SelectMembers(Matching(get, f), window, window[0]);
    }
  }

  /** The window holds the last min(capacity, k) of the k messages recorded since the last clear,
      with consecutive sequence numbers ending at the last one handed out. */
  lemma WindowMeaning(log: Log, capacity: nat)
    requires ValidLog(log)
    ensures var w, k, next := Window(log, capacity), |log.history| - log.cleared, |log.history| + 1;
            && |w| == (if k <= capacity then k else capacity)
            && w == LastOf(log.history[log.cleared..], capacity)
            && forall i :: 0 <= i < |w| ==> w[i].seqNo == next - |w| + i
  {
  }

  /** Appending and then dropping what exceeds the capacity keeps the window. */
  lemma WindowSlides(log: Log, capacity: nat, msg: Message, now: int)
    requires log.cleared <= |log.history| && capacity > 0
    ensures var m := Captured(msg, |log.history| + 1, now);
            Window(RecordedIn(log, msg, now), capacity) == LastOf(Window(log, capacity) + [m], capacity)
  {
  }

  // Any run of Record and Clear

  datatype Change = Recording(msg: Message, now: int) | Clearing

  function Applied(log: Log, change: Change): Log {
    match change
    case Recording(msg, now) => RecordedIn(log, msg, now)
    case Clearing => ClearedLog(log)
  }

  function LogAfter(changes: seq<Change>): Log {
    if changes == [] then Log([], 0) else Applied(LogAfter(changes[..|changes| - 1]), changes[|changes| - 1])
  }

  /** What the code stores: the messages and the next sequence number. */
  datatype Stored = Stored(messages: seq<CapturedMessage>, nextSeq: nat)

  function Update(capacity: nat, stored: Stored, change: Change): Stored {
    match change
    case Recording(msg, now) =>
      Stored(LastOf(stored.messages + [Captured(msg, stored.nextSeq, now)], capacity), stored.nextSeq + 1)
    case Clearing => Stored([], stored.nextSeq)
  }

  function StoredAfter(capacity: nat, changes: seq<Change>): Stored {
    if changes == [] then Stored([], 1)
    else Update(capacity, StoredAfter(capacity, changes[..|changes| - 1]), changes[|changes| - 1])
  }

  /** How many messages were recorded after the last clear. */
  function SinceClear(changes: seq<Change>): nat {
    if changes == [] || changes[|changes| - 1].Clearing? then 0 else SinceClear(changes[..|changes| - 1]) + 1
  }

  lemma {:induction false} LogIsValid(changes: seq<Change>)
    ensures ValidLog(LogAfter(changes))
    ensures |LogAfter(changes).history| - LogAfter(changes).cleared == SinceClear(changes)
  {
    if changes != [] {
      LogIsValid(changes[..|changes| - 1]);
    }
  }

  function StoredOf(capacity: nat, log: Log): Stored {
    Stored(Window(log, capacity), |log.history| + 1)
  }

  lemma UpdateKeepsWindow(capacity: nat, log: Log, change: Change)
    requires capacity > 0 && ValidLog(log)
    ensures Update(capacity, StoredOf(capacity, log), change) == StoredOf(capacity, Applied(log, change))
  {
    match change
    case Recording(msg, now) => WindowSlides(log, capacity, msg, now);
    case Clearing => assert Window(ClearedLog(log), capacity) == [];
  }

  lemma {:induction false} StoredIsWindow(capacity: nat, changes: seq<Change>)
    requires capacity > 0
    ensures StoredAfter(capacity, changes) == StoredOf(capacity, LogAfter(changes))
  {
    if changes == [] {
      assert Window(Log([], 0), capacity) == [];
    } else {
      StoredIsWindow(capacity, changes[..|changes| - 1]);
      LogIsValid(changes[..|changes| - 1]);
      UpdateKeepsWindow(capacity, LogAfter(changes[..|changes| - 1]), changes[|changes| - 1]);
    }
  }

  /** After any run of Record and Clear the buffer is the window of the full history: the last
      min(capacity, k) of the k messages recorded since the last clear, numbered consecutively. */
  lemma BufferRefinesHistory(capacity: nat, changes: seq<Change>)
    requires capacity > 0
    ensures var Stored(messages, next) := StoredAfter(capacity, changes);
            var history, k := LogAfter(changes).history, SinceClear(changes);
            && k <= |history| && next == |history| + 1
            && messages == LastOf(history[|history| - k..], capacity)
            && forall i :: 0 <= i < |messages| ==> messages[i].seqNo == next - |messages| + i
  {
    StoredIsWindow(capacity, changes);
    LogIsValid(changes);
    WindowMeaning(LogAfter(changes), capacity);
  }

  predicate Ascending(ms: seq<CapturedMessage>) {
    forall i, j :: 0 <= i < j < |ms| ==> ms[i].seqNo < ms[j].seqNo
  }

  lemma {:induction false} SelectAscends(p: CapturedMessage -> bool, ms: seq<CapturedMessage>)
    requires Ascending(ms)
    ensures Ascending(Select(p, ms))
  {
    if ms != [] {
      var init, last := ms[..|ms| - 1], ms[|ms| - 1];
      SelectAscends(p, init);
      var found := Select(p, init);
      forall i | 0 <= i < |found| ensures found[i].seqNo < last.seqNo {
        SelectMembers(p, init, found[i]);
      }
    }
  }

  /** The last n of ascending messages are the n most recent ones. */
  lemma LastAreMostRecent(ms: seq<CapturedMessage>, n: nat, m: CapturedMessage, a: CapturedMessage)
    requires Ascending(ms)
    requires m in ms && m !in LastOf(ms, n) && a in LastOf(ms, n)
    ensures m.seqNo < a.seqNo
  {
    var last := LastOf(ms, n);
    var i :| 0 <= i < |ms| && ms[i] == m;
    var j :| 0 <= j < |last| && last[j] == a;
    assert a == ms[|ms| - |last| + j];
    assert forall k :: |ms| - |last| <= k < |ms| ==> ms[k] == last[k - (|ms| - |last|)];
  }

  /** The header is there, with the wanted value if there is one. */
  predicate HasHeader(headers: Headers, name: string, want: Option<string>) {
    name in headers
    && (want == None || headers[name] == Printed(want.value) || (headers[name] == Nil && want.value == "<nil>"))
  }

  /** The body is not empty and has something at the path, the wanted value if there is one. */
  predicate HasValue(get: Lookup, raw: string, filter: BodyFilter) {
    |raw| > 0 && get(raw, filter.path) != None && (filter.value == None || filter.value == get(raw, filter.path))
  }

  /** m meets every condition of the filter that is set. */
  ghost predicate MeetsConditions(get: Lookup, f: Filter, m: CapturedMessage) {
    && (f.queue == "" || m.queue == f.queue)
    && (f.exchange == "" || m.exchange == f.exchange)
    && (f.routingKey == "" || m.routingKey == f.routingKey)
    && (f.direction == Unset || m.direction == f.direction)
    && (f.rule == "" || m.rule == f.rule)
    && (f.sinceSeq == 0 || m.seqNo > f.sinceSeq)
    && (forall name :: name in f.headers ==> HasHeader(m.headers, name, f.headers[name]))
    && (forall i :: 0 <= i < |f.body| ==> HasValue(get, m.raw, f.body[i]))
  }

  lemma MatchesMeaning(get: Lookup, f: Filter, m: CapturedMessage)
    ensures Matches(get, f, m) <==> MeetsConditions(get, f, m)
  {
    forall name | name in f.headers
      ensures HeaderMatches(m.headers, name, f.headers[name]) <==> HasHeader(m.headers, name, f.headers[name])
    {
    }
    forall i | 0 <= i < |f.body| ensures BodyMatches(get, m.raw, f.body[i]) <==> HasValue(get, m.raw, f.body[i]) {
    }
  }

  ghost predicate IsHit(get: Lookup, f: Filter, log: Log, capacity: nat, m: CapturedMessage)
    requires ValidLog(log)
  {
    m in Window(log, capacity) && MeetsConditions(get, f, m)
  }

  /** A query's answer is in order of sequence numbers and holds matching messages of the window:
      all of them without a limit, otherwise the most recent ones, as many as the limit allows. */
  lemma AnswerMeaning(get: Lookup, f: Filter, log: Log, capacity: nat)
    requires ValidLog(log)
    ensures var answer := Answer(get, f, Window(log, capacity));
            && Ascending(answer)
            && (forall m :: m in answer ==> IsHit(get, f, log, capacity, m))
            && (f.limit > 0 ==> |answer| <= f.limit)
            && (f.limit <= 0 || |answer| < f.limit ==> forall m :: IsHit(get, f, log, capacity, m) ==> m in answer)
            && (forall m, a :: IsHit(get, f, log, capacity, m) && m !in answer && a in answer ==> m.seqNo < a.seqNo)
  {
    var window, p := Window(log, capacity), Matching(get, f);
    SelectAscends(p, window);
    var found := Select(p, window);
    forall m ensures m in found <==> IsHit(get, f, log, capacity, m) {
      SelectMembers(p, window, m);
      MatchesMeaning(get, f, m);
    }
    if f.limit > 0 {
      forall m, a | m in found && m !in LastOf(found, f.limit) && a in LastOf(found, f.limit) ensures m.seqNo < a.seqNo {
        LastAreMostRecent(found, f.limit, m, a);
      }
    }
  }

  /** Appending one message drops at most one. */
  lemma LastOfOneMore(ms: seq<CapturedMessage>, m: CapturedMessage, n: nat)
    requires |ms| <= n && n > 0
    ensures var after := LastOf(ms + [m], n);
            after != [] && after[|after| - 1] == m && after[..|after| - 1] == if |ms| < n then ms else ms[1..]
  {
  }
}
