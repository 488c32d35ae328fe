/** The RingBuffer of pkg/spy/server.go. Each method is a critical section of its lock. */
module RingBuffers {
  import opened Basics
  import opened Config
  import opened Spy

  /** A channel that is only ever closed. Closing it twice would panic. */
  class Signal {
    var closed: bool

    constructor ()
      ensures !closed
    {
      closed := false;
    }

    method Close()
      requires !closed
      modifies this
      ensures closed
    {
      closed := true;
    }
  }

  /** Filter.matches, which is left at the first condition that fails. */
  method FilterMatches(get: Lookup, f: Filter, m: CapturedMessage) returns (matches: bool)
    ensures matches == Matches(get, f, m)
    ensures matches <==> MeetsConditions(get, f, m)
  {
    MatchesMeaning(get, f, m);
    if (f.queue != "" && m.queue != f.queue) || (f.exchange != "" && m.exchange != f.exchange)
      || (f.routingKey != "" && m.routingKey != f.routingKey) || (f.direction != Unset && m.direction != f.direction)
      || (f.rule != "" && m.rule != f.rule) || (f.sinceSeq > 0 && m.seqNo <= f.sinceSeq)
    {
      return false;
    }
    var names := f.headers.Keys;
    while names != {}
      invariant names <= f.headers.Keys
      invariant forall name :: name in f.headers && name !in names ==> HeaderMatches(m.headers, name, f.headers[name])
      decreases |names|
    {
      var name :| name in names;
      if !HeaderMatches(m.headers, name, f.headers[name]) {
        return false;
      }
      names := names - {name};
    }
    for i := 0 to |f.body|
      invariant forall j :: 0 <= j < i ==> BodyMatches(get, m.raw, f.body[j])
    {
      if !BodyMatches(get, m.raw, f.body[i]) {
        return false;
      }
    }
    return true;
  }

  class RingBuffer {
    var messages: seq<CapturedMessage>
    const maxSize: nat
    var nextSeq: nat
    var changed: Signal

    /** All that was recorded, and the signals that were replaced, oldest first. */
    ghost var log: Log
    ghost var retired: seq<Signal>

    ghost predicate Valid()
      reads this, changed, retired
    {
      && maxSize > 0
      && ValidLog(log)
      && nextSeq == |log.history| + 1
      && messages == Window(log, maxSize)
      && SignalsValid()
    }

    /** The replaced signals are closed, the current one is open and not among them. */
    ghost predicate SignalsValid()
      reads this, changed, retired
    {
      && !changed.closed
      && NoDuplicates(retired)
      && forall i :: 0 <= i < |retired| ==> retired[i] != changed && retired[i].closed
    }

    constructor (size: int)
      ensures Valid() && log == Log([], 0) && retired == [] && fresh(changed)
      ensures maxSize == if size <= 0 then 1000 else size
    {
      messages := [];
      maxSize := if size <= 0 then DEFAULT_CAPACITY else size;
      nextSeq := 1;
      changed := new Signal();
      log := Log([], 0);
      retired := [];
    }

    /** notifyLocked */
    method Notify()
      requires SignalsValid()
      modifies this`changed, this`retired, changed
      ensures SignalsValid() && fresh(changed)
      ensures retired == old(retired) + [old(changed)]
    {
      changed.Close();
      retired := retired + [changed];
      changed := new Signal();
    }

    /** Records msg under the next sequence number and wakes whoever waits. */
    method Record(msg: Message, now: int)
      requires Valid()
      modifies this, changed
      ensures Valid() && log == RecordedIn(old(log), msg, now)
      ensures messages != [] && nextSeq == old(nextSeq) + 1
      ensures var last := messages[|messages| - 1];
              && last.seqNo == old(nextSeq) && last.timestamp == now
              && last.direction == (if msg.direction == Unset then Received else msg.direction)
              && last.queue == msg.queue && last.exchange == msg.exchange && last.routingKey == msg.routingKey
              && last.rule == msg.rule && last.messageID == msg.messageID && last.headers == msg.headers && last.raw == msg.body
      ensures messages[..|messages| - 1] == if |old(messages)| < maxSize then old(messages) else old(messages)[1..]
      ensures fresh(changed) && retired == old(retired) + [old(changed)]
    {
      WindowSlides(log, maxSize, msg, now);
      var direction := if msg.direction == Unset then Received else msg.direction;
      var captured := CapturedMessage(
        nextSeq, now, direction, msg.queue, msg.exchange, msg.routingKey, msg.rule, msg.messageID, msg.headers, msg.body);
      nextSeq := nextSeq + 1;
      messages := messages + [captured];
      if |messages| > maxSize {
        messages := messages[|messages| - maxSize..];
      }
      LastOfOneMore(old(messages), captured, maxSize);
      log := RecordedIn(log, msg, now);
      Notify();
    }

    /** Empties the buffer, tells how much was in it and wakes whoever waits; sequence numbers go on. */
    method Clear() returns (n: nat)
      requires Valid()
      modifies this, changed
      ensures Valid() && log == ClearedLog(old(log)) && messages == [] && nextSeq == old(nextSeq)
      ensures n == |old(messages)|
      ensures fresh(changed) && retired == old(retired) + [old(changed)]
    {
      n := |messages|;
      messages := [];
      log := ClearedLog(log);
      Notify();
    }

    method Query(get: Lookup, f: Filter) returns (result: seq<CapturedMessage>)
      requires Valid()
      ensures result == Answer(get, f, Window(log, maxSize))
    {
      result := [];
      for i := 0 to |messages|
        invariant result == Select(Matching(get, f), messages[..i])
      {
        assert messages[..i + 1] == messages[..i] + [messages[i]];
        SelectSnoc(Matching(get, f), messages[..i], messages[i]);
        var matches := FilterMatches(get, f, messages[i]);
        if matches {
          result := result + [messages[i]];
        }
      }
      assert messages[..|messages|] == messages;
      if f.limit > 0 && |result| > f.limit {
        result := result[|result| - f.limit..];
      }
    }

    method Changed() returns (signal: Signal)
      requires Valid()
      ensures signal == changed && !signal.closed
    {
      signal := changed;
    }

    method Count() returns (n: nat)
      requires Valid()
      ensures n == |Window(log, maxSize)|
    {
      n := |messages|;
    }
  }
}
