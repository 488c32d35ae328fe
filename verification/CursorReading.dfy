/** Reading the spy with a cursor: a client that polls with `since` set to the last sequence number
    it saw, beside recorders and clearers (pkg/spy/server.go). */
module CursorReading {
  import opened Basics
  import opened Config
  import opened Spy

  type Selector = CapturedMessage -> bool

  datatype Event = Record(msg: Message, now: int) | Clear | Poll

  /** The client's cursor and everything its polls returned, in order. The last two parts only
      serve the proof: how much had been recorded at the last poll, and which of the messages
      recorded before it were in the window at no poll. */
  datatype Reader = Reader(log: Log, cursor: nat, received: seq<CapturedMessage>, polled: nat, missed: set<nat>)

  function Init(): Reader {
    Reader(Log([], 0), 0, [], 0, {})
  }

  function Since(f: Filter, cursor: nat): Filter {
    f.(sinceSeq := cursor, limit := 0)
  }

  function Span(lo: nat, hi: nat): (r: set<nat>)
    ensures forall i: nat :: i in r <==> lo <= i < hi
    decreases hi
  {
    if hi <= lo then {} else Span(lo, hi - 1) + {hi - 1}
  }

  function After(get: Lookup, f: Filter, capacity: nat, r: Reader, event: Event): Reader {
    match event
    case Record(msg, now) => r.(log := RecordedIn(r.log, msg, now))
    case Clear => r.(log := ClearedLog(r.log))
    case Poll =>
      var answer := Answer(get, Since(f, r.cursor), Window(r.log, capacity));
      Reader(
        r.log, if answer == [] then r.cursor else answer[|answer| - 1].seqNo, r.received + answer,
        |r.log.history|, r.missed + Span(r.polled, Start(r.log, capacity)))
  }

  function AfterAll(get: Lookup, f: Filter, capacity: nat, r: Reader, events: seq<Event>): Reader
    decreases events
  {
    if events == [] then r else AfterAll(get, f, capacity, After(get, f, capacity, r, events[0]), events[1..])
  }

  function Selecting(get: Lookup, f: Filter): Selector {
    m => Selects(get, f, m)
  }

  /** The first n messages of the history that q selects, without the missed ones. */
  function Kept(q: Selector, history: seq<CapturedMessage>, missed: set<nat>, n: nat): seq<CapturedMessage>
    requires n <= |history|
  {
    if n == 0 then []
    else
      Kept(q, history, missed, n - 1)
      + (if n - 1 !in missed && q(history[n - 1]) then [history[n - 1]] else [])
  }

  ghost predicate Inv(get: Lookup, f: Filter, capacity: nat, r: Reader) {
    var q := Selecting(get, f);
    && ValidLog(r.log)
    && ReceivedInv(q, r.log.history, r.received, r.polled, r.missed, Start(r.log, capacity))
    && CursorInv(q, r.log.history, r.cursor, r.polled, r.missed)
    && IsCursor(r.cursor, r.received)
  }

  ghost predicate ReceivedInv(
    q: Selector, h: seq<CapturedMessage>, received: seq<CapturedMessage>, polled: nat, missed: set<nat>, start: nat)
  {
    && polled <= |h|
    && (forall i :: i in missed ==> i < polled && i < start)
    && received == Kept(q, h, missed, polled)
  }

  /** What was polled after the last received message did not match or was missed. */
  ghost predicate CursorInv(q: Selector, h: seq<CapturedMessage>, cursor: nat, polled: nat, missed: set<nat>)
  {
    && cursor <= polled <= |h|
    && forall i :: cursor <= i < polled && i !in missed ==> !q(h[i])
  }

  ghost predicate IsCursor(cursor: nat, received: seq<CapturedMessage>) {
    cursor == if received == [] then 0 else received[|received| - 1].seqNo
  }

  lemma {:induction false} KeptDepends(
    q: Selector, a: seq<CapturedMessage>, b: seq<CapturedMessage>, m: set<nat>, m': set<nat>, n: nat)
    requires n <= |a| && n <= |b| && a[..n] == b[..n]
    requires forall i :: 0 <= i < n ==> (i in m <==> i in m')
    ensures Kept(q, a, m, n) == Kept(q, b, m', n)
  {
    if n > 0 {
      assert a[..n - 1] == a[..n][..n - 1] && b[..n - 1] == b[..n][..n - 1];
      assert a[n - 1] == a[..n][n - 1] && b[n - 1] == b[..n][n - 1];
      KeptDepends(q, a, b, m, m', n - 1);
    }
  }

  /** Filtering the messages from position `from` on extends what is kept up to there, if the
      predicate agrees with the filter on them and the missed ones are not among them. */
  lemma {:induction false} KeptExtends(
    q: Selector, p: Selector, history: seq<CapturedMessage>, missed: set<nat>, from: nat, to: nat)
    requires from <= to <= |history|
    requires forall i :: from <= i < to ==> i !in missed && (p(history[i]) <==> q(history[i]))
    ensures Kept(q, history, missed, to) == Kept(q, history, missed, from) + Select(p, history[from..to])
  {
    if from < to {
      KeptExtends(q, p, history, missed, from, to - 1);
      assert history[from..to] == history[from..to - 1] + [history[to - 1]];
      SelectSnoc(p, history[from..to - 1], history[to - 1]);
    }
  }

  /** Messages that are missed or do not match add nothing. */
  lemma {:induction false} KeptSkips(q: Selector, history: seq<CapturedMessage>, missed: set<nat>, from: nat, to: nat)
    requires from <= to <= |history|
    requires forall i :: from <= i < to ==> i in missed || !q(history[i])
    ensures Kept(q, history, missed, to) == Kept(q, history, missed, from)
  {
    if from < to {
      KeptSkips(q, history, missed, from, to - 1);
    }
  }

  /** What a poll returns: the selected messages from the later of the window's start and the end of
      the previous poll. Those in between were returned before or do not match. */
  lemma PollAnswer(get: Lookup, f: Filter, capacity: nat, r: Reader)
    requires Inv(get, f, capacity, r)
    ensures var h, p, start := r.log.history, Matching(get, Since(f, r.cursor)), Start(r.log, capacity);
            var from := if start < r.polled then r.polled else start;
            && Answer(get, Since(f, r.cursor), Window(r.log, capacity)) == Select(p, h[from..])
            && forall i :: from <= i < |h| ==> (p(h[i]) <==> Selecting(get, f)(h[i]))
  {
    var h, p, start := r.log.history, Matching(get, Since(f, r.cursor)), Start(r.log, capacity);
    if start < r.polled {
      assert h[start..] == h[start..r.polled] + h[r.polled..];
      SelectConcat(p, h[start..r.polled], h[r.polled..]);
      forall i | 0 <= i < |h[start..r.polled]| ensures !p(h[start..r.polled][i]) {
        assert h[start..r.polled][i] == h[start + i];
      }
      SelectNone(p, h[start..r.polled]);
    }
  }

  /** What is kept grows by the answer, when everything between `polled` and `start` is missed. */
  lemma KeptGrows(q: Selector, p: Selector, h: seq<CapturedMessage>, missed: set<nat>, polled: nat, start: nat, from: nat)
    requires polled <= |h| && start <= |h| && from == (if start < polled then polled else start)
    requires forall i :: i in missed ==> i < polled
    requires forall i :: from <= i < |h| ==> (p(h[i]) <==> q(h[i]))
    ensures Kept(q, h, missed + Span(polled, start), |h|) == Kept(q, h, missed, polled) + Select(p, h[from..])
  {
    var more := missed + Span(polled, start);
    KeptExtends(q, p, h, more, from, |h|);
    assert h[from..|h|] == h[from..];
    KeptSkips(q, h, more, polled, from);
    KeptDepends(q, h, h, missed, more, polled);
  }

  lemma LastIsGreatest(p: Selector, ms: seq<CapturedMessage>, k: nat)
    requires Ascending(ms) && k < |ms| && p(ms[k])
    ensures var found := Select(p, ms); found != [] && ms[k].seqNo <= found[|found| - 1].seqNo
  {
    SelectMembers(p, ms, ms[k]);
    SelectAscends(p, ms);
  }

  /** The cursor moves to the last message of the answer, after which nothing matches. */
  lemma CursorMoves(q: Selector, p: Selector, h: seq<CapturedMessage>, from: nat)
    requires from <= |h| && ValidLog(Log(h, 0))
    requires forall i :: from <= i < |h| ==> (p(h[i]) <==> q(h[i]))
    ensures var answer := Select(p, h[from..]);
            if answer == [] then forall i :: from <= i < |h| ==> !q(h[i])
            else
              var cursor := answer[|answer| - 1].seqNo;
              from < cursor <= |h| && forall i :: cursor <= i < |h| ==> !q(h[i])
  {
    var answer := Select(p, h[from..]);
    forall i | from <= i < |h| && q(h[i]) ensures answer != [] && i < answer[|answer| - 1].seqNo {
      assert h[from..][i - from] == h[i];
      LastIsGreatest(p, h[from..], i - from);
    }
    if answer != [] {
      SelectMembers(p, h[from..], answer[|answer| - 1]);
    }
  }

  lemma CursorInvKept(q: Selector, p: Selector, h: seq<CapturedMessage>, cursor: nat, missed: set<nat>, polled: nat,
    start: nat, from: nat, answer: seq<CapturedMessage>)
    requires ValidLog(Log(h, 0))
    requires start <= |h| && from == (if start < polled then polled else start)
    requires CursorInv(q, h, cursor, polled, missed)
    requires forall i :: from <= i < |h| ==> (p(h[i]) <==> q(h[i]))
    requires answer == Select(p, h[from..])
    ensures CursorInv(q, h, if answer == [] then cursor else answer[|answer| - 1].seqNo, |h|, missed + Span(polled, start))
  {
    CursorMoves(q, p, h, from);
  }

  lemma PollKeepsInv(get: Lookup, f: Filter, capacity: nat, r: Reader)
    requires Inv(get, f, capacity, r)
    ensures Inv(get, f, capacity, After(get, f, capacity, r, Poll))
  {
    var q, h, p, start := Selecting(get, f), r.log.history, Matching(get, Since(f, r.cursor)), Start(r.log, capacity);
    var from := if start < r.polled then r.polled else start;
    var answer := Answer(get, Since(f, r.cursor), Window(r.log, capacity));
    var t := After(get, f, capacity, r, Poll);
    PollAnswer(get, f, capacity, r);
    assert CursorInv(q, h, t.cursor, t.polled, t.missed) by {
      CursorInvKept(q, p, h, r.cursor, r.missed, r.polled, start, from, answer);
    }
    assert ReceivedInv(q, h, t.received, t.polled, t.missed, start) by {
      KeptGrows(q, p, h, r.missed, r.polled, start, from);
    }
    assert IsCursor(t.cursor, t.received) by {
      CursorFollows(r.cursor, r.received, answer);
    }
  }

  lemma CursorFollows(cursor: nat, received: seq<CapturedMessage>, answer: seq<CapturedMessage>)
    requires IsCursor(cursor, received)
    ensures IsCursor(if answer == [] then cursor else answer[|answer| - 1].seqNo, received + answer)
  {
    assert answer == [] ==> received + answer == received;
  }

  lemma InvStep(get: Lookup, f: Filter, capacity: nat, r: Reader, event: Event)
    requires Inv(get, f, capacity, r)
    ensures Inv(get, f, capacity, After(get, f, capacity, r, event))
  {
    match event
    case Record(msg, now) =>
      KeptDepends(Selecting(get, f), r.log.history, RecordedIn(r.log, msg, now).history, r.missed, r.missed, r.polled);
    case Clear =>
    case Poll => PollKeepsInv(get, f, capacity, r);
  }

  lemma {:induction false} InvRun(get: Lookup, f: Filter, capacity: nat, r: Reader, events: seq<Event>)
    requires Inv(get, f, capacity, r)
    ensures Inv(get, f, capacity, AfterAll(get, f, capacity, r, events))
    decreases events
  {
    if events != [] {
      InvStep(get, f, capacity, r, events[0]);
      InvRun(get, f, capacity, After(get, f, capacity, r, events[0]), events[1..]);
    }
  }

  // The properties of cursor reading

  lemma {:induction false} KeptMeaning(q: Selector, history: seq<CapturedMessage>, missed: set<nat>, n: nat)
    requires n <= |history| && ValidLog(Log(history, 0))
    ensures Ascending(Kept(q, history, missed, n))
    ensures forall m :: m in Kept(q, history, missed, n) <==>
              exists i :: 0 <= i < n && i !in missed && q(history[i]) && m == history[i]
  {
    if n > 0 {
      KeptMeaning(q, history, missed, n - 1);
      var before := Kept(q, history, missed, n - 1);
      assert forall k :: 0 <= k < |before| ==> before[k] in before;
    }
  }

  /** Message i of the history is in the window at some poll of the events that follow r. */
  predicate SeenAtPoll(get: Lookup, f: Filter, capacity: nat, r: Reader, events: seq<Event>, i: nat)
    decreases events
  {
    events != [] &&
    ((events[0].Poll? && Start(r.log, capacity) <= i < |r.log.history|)
     || SeenAtPoll(get, f, capacity, After(get, f, capacity, r, events[0]), events[1..], i))
  }

  /** The bookkeeping of missed messages is about the windows at the polls. */
  lemma {:induction false} SeenExactly(get: Lookup, f: Filter, capacity: nat, r: Reader, events: seq<Event>, i: nat)
    requires Inv(get, f, capacity, r)
    ensures var t := AfterAll(get, f, capacity, r, events);
            i < t.polled && i !in t.missed <==>
            (i < r.polled && i !in r.missed) || SeenAtPoll(get, f, capacity, r, events, i)
    decreases events
  {
    if events != [] {
      InvStep(get, f, capacity, r, events[0]);
      SeenExactly(get, f, capacity, After(get, f, capacity, r, events[0]), events[1..], i);
    }
  }

  lemma SeenFromStart(get: Lookup, f: Filter, capacity: nat, events: seq<Event>)
    ensures var r := AfterAll(get, f, capacity, Init(), events);
            Inv(get, f, capacity, r)
            && forall i: nat :: SeenAtPoll(get, f, capacity, Init(), events, i) <==> i < r.polled && i !in r.missed
  {
    var r := AfterAll(get, f, capacity, Init(), events);
    InvRun(get, f, capacity, Init(), events);
    forall i: nat ensures SeenAtPoll(get, f, capacity, Init(), events, i) <==> i < r.polled && i !in r.missed {
      SeenExactly(get, f, capacity, Init(), events, i);
    }
  }

  /** Whatever is recorded and cleared in between, the polls together return each selected message
      that was in the window at some poll exactly once, in ascending order, and nothing else. */
  lemma NothingTwice(get: Lookup, f: Filter, capacity: nat, events: seq<Event>)
    ensures var r := AfterAll(get, f, capacity, Init(), events);
            && Ascending(r.received)
            && r.polled <= |r.log.history|
            && (forall i: nat :: SeenAtPoll(get, f, capacity, Init(), events, i) ==> i < r.polled)
            && forall m :: m in r.received <==>
                 exists i: nat :: SeenAtPoll(get, f, capacity, Init(), events, i)
                             && Selects(get, f, r.log.history[i]) && m == r.log.history[i]
  {
    var r := AfterAll(get, f, capacity, Init(), events);
    SeenFromStart(get, f, capacity, events);
    KeptMeaning(Selecting(get, f), r.log.history, r.missed, r.polled);
  }

  /** A poll is on time if at most `capacity` of the messages recorded since the previous poll are
      pending and none of them was cleared. */
  predicate OnTime(capacity: nat, event: Event, pending: nat, cleared: bool) {
    event.Poll? ==> pending <= capacity && !cleared
  }

  function NextPending(event: Event, pending: nat): nat {
    match event
    case Record(_, _) => pending + 1
    case Clear => pending
    case Poll => 0
  }

  predicate NextCleared(event: Event, pending: nat, cleared: bool) {
    match event
    case Record(_, _) => cleared
    case Clear => pending > 0
    case Poll => false
  }

  /** Every poll is on time. */
  predicate Paced(capacity: nat, events: seq<Event>, pending: nat, cleared: bool) {
    events == []
    || (OnTime(capacity, events[0], pending, cleared)
        && Paced(capacity, events[1..], NextPending(events[0], pending), NextCleared(events[0], pending, cleared)))
  }

  lemma {:induction false} MissedGrows(get: Lookup, f: Filter, capacity: nat, r: Reader, events: seq<Event>)
    ensures r.missed <= AfterAll(get, f, capacity, r, events).missed
    decreases events
  {
    if events != [] {
      MissedGrows(get, f, capacity, After(get, f, capacity, r, events[0]), events[1..]);
    }
  }

  lemma PollMisses(get: Lookup, f: Filter, capacity: nat, r: Reader)
    requires Inv(get, f, capacity, r) && r.missed == {}
    ensures After(get, f, capacity, r, Poll).missed == {} <==>
            |r.log.history| - r.polled <= capacity && r.log.cleared <= r.polled
  {
    var lost := Span(r.polled, Start(r.log, capacity));
    assert r.polled in lost <==> r.polled < Start(r.log, capacity);
    assert lost == {} <==> r.polled !in lost;
  }

  /** An event misses nothing exactly if it is on time. */
  lemma EventMisses(get: Lookup, f: Filter, capacity: nat, r: Reader, event: Event)
    requires Inv(get, f, capacity, r) && r.missed == {}
    ensures var t := After(get, f, capacity, r, event);
            var pending, cleared := |r.log.history| - r.polled, r.log.cleared > r.polled;
            && (t.missed == {} <==> OnTime(capacity, event, pending, cleared))
            && |t.log.history| - t.polled == NextPending(event, pending)
            && (t.log.cleared > t.polled <==> NextCleared(event, pending, cleared))
  {
    if event.Poll? {
      PollMisses(get, f, capacity, r);
    }
  }

  lemma {:induction false} MissedExactly(get: Lookup, f: Filter, capacity: nat, r: Reader, events: seq<Event>)
    requires Inv(get, f, capacity, r) && r.missed == {}
    ensures AfterAll(get, f, capacity, r, events).missed == {} <==>
            Paced(capacity, events, |r.log.history| - r.polled, r.log.cleared > r.polled)
    decreases events
  {
    if events != [] {
      var t := After(get, f, capacity, r, events[0]);
      InvStep(get, f, capacity, r, events[0]);
      EventMisses(get, f, capacity, r, events[0]);
      if t.missed == {} {
        MissedExactly(get, f, capacity, t, events[1..]);
      } else {
        MissedGrows(get, f, capacity, t, events[1..]);
      }
    }
  }

  /** Leaving out a selected message makes the sequence shorter. */
  lemma {:induction false} KeptIsAll(q: Selector, history: seq<CapturedMessage>, missed: set<nat>, n: nat)
    requires n <= |history|
    ensures |Kept(q, history, missed, n)| <= |Select(q, history[..n])|
    ensures if forall i :: 0 <= i < n && q(history[i]) ==> i !in missed
            then Kept(q, history, missed, n) == Select(q, history[..n])
            else |Kept(q, history, missed, n)| < |Select(q, history[..n])|
  {
    if n > 0 {
      KeptIsAll(q, history, missed, n - 1);
      assert history[..n] == history[..n - 1] + [history[n - 1]];
      SelectSnoc(q, history[..n - 1], history[n - 1]);
    }
  }

  /** The polls together return the filtered history up to the last poll, complete, in order and
      without repetition, exactly if every selected message up to there was in the window at some
      poll. */
  lemma ReadingIsCompleteExactlyIfSeen(get: Lookup, f: Filter, capacity: nat, events: seq<Event>)
    ensures var r := AfterAll(get, f, capacity, Init(), events);
            && r.polled <= |r.log.history|
            && (r.received == Select(Selecting(get, f), r.log.history[..r.polled]) <==>
                forall i: nat :: i < r.polled && Selects(get, f, r.log.history[i]) ==>
                  SeenAtPoll(get, f, capacity, Init(), events, i))
  {
    var r := AfterAll(get, f, capacity, Init(), events);
    SeenFromStart(get, f, capacity, events);
    KeptIsAll(Selecting(get, f), r.log.history, r.missed, r.polled);
  }

  lemma NothingMissed(missed: set<nat>, polled: nat)
    requires forall i :: i in missed ==> i < polled
    ensures missed == {} <==> forall i: nat :: i < polled ==> i !in missed
  {
    if missed != {} {
      var i :| i in missed;
    }
  }

  /** Every message recorded before the last poll was in the window at some poll exactly if the
      polls keep pace. */
  lemma PacedExactlyIfAllSeen(get: Lookup, f: Filter, capacity: nat, events: seq<Event>)
    ensures Paced(capacity, events, 0, false) <==>
            forall i: nat :: i < AfterAll(get, f, capacity, Init(), events).polled ==>
              SeenAtPoll(get, f, capacity, Init(), events, i)
  {
    var r := AfterAll(get, f, capacity, Init(), events);
    SeenFromStart(get, f, capacity, events);
    MissedExactly(get, f, capacity, Init(), events);
    assert Paced(capacity, events, 0, false) <==> r.missed == {};
    NothingMissed(r.missed, r.polled);
    if r.missed == {} {
      forall i: nat | i < r.polled ensures SeenAtPoll(get, f, capacity, Init(), events, i) {
      }
    } else {
      var i: nat :| i < r.polled && i in r.missed;
      assert !SeenAtPoll(get, f, capacity, Init(), events, i);
    }
  }

  /** So a reader that keeps pace gets the whole filtered history, whatever its filter. */
  lemma PacedReadingIsComplete(get: Lookup, f: Filter, capacity: nat, events: seq<Event>)
    requires Paced(capacity, events, 0, false)
    ensures var r := AfterAll(get, f, capacity, Init(), events);
            r.polled <= |r.log.history| && r.received == Select(Selecting(get, f), r.log.history[..r.polled])
  {
    PacedExactlyIfAllSeen(get, f, capacity, events);
    ReadingIsCompleteExactlyIfSeen(get, f, capacity, events);
  }

  /** Two messages between two polls of a reader whose window has room for one. */
  function Overrun(first: Message, second: Message): seq<Event> {
    [Record(first, 0), Record(second, 0), Poll]
  }

  /** The first of them is in the window at no poll, and the reader of everything never gets it. */
  lemma OverrunLosesMessage(get: Lookup, first: Message, second: Message)
    ensures var r := AfterAll(get, EVERYTHING, 1, Init(), Overrun(first, second));
            && r.polled == |r.log.history| == 2
            && !SeenAtPoll(get, EVERYTHING, 1, Init(), Overrun(first, second), 0)
            && r.received != Select(Selecting(get, EVERYTHING), r.log.history[..r.polled])
  {
    var events := Overrun(first, second);
    assert events[1..] == [Record(second, 0), Poll] && events[1..][1..] == [Poll] && [Poll][1..] == [];
    var a := After(get, EVERYTHING, 1, Init(), events[0]);
    var b := After(get, EVERYTHING, 1, a, events[1]);
    var c := After(get, EVERYTHING, 1, b, Poll);
    assert AfterAll(get, EVERYTHING, 1, b, [Poll]) == c && !SeenAtPoll(get, EVERYTHING, 1, b, [Poll], 0);
    assert AfterAll(get, EVERYTHING, 1, a, events[1..]) == c && !SeenAtPoll(get, EVERYTHING, 1, a, events[1..], 0);
    ReadingIsCompleteExactlyIfSeen(get, EVERYTHING, 1, events);
    assert Selects(get, EVERYTHING, b.log.history[0]);
  }
}
