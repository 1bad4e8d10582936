// The window event queue (final_platform_layer.hpp:3323-3339, 3958-3971):
// a fixed array of MAX_EVENT_COUNT events with a poll index and a push count.
// The atomic add and exchange on the counters are modelled as plain
// sequential read-then-update.
module EventQueue {
  import opened Events

  const MAX_EVENT_COUNT: nat := 32768

  /** The queue's whole state, as values. */
  datatype QueueView = QueueView(events: seq<Event>, pollIndex: nat, pushCount: nat)

  /** What every reachable queue state satisfies. */
  predicate Valid(q: QueueView)
  {
    |q.events| == MAX_EVENT_COUNT && q.pollIndex <= q.pushCount <= MAX_EVENT_COUNT
  }

  /** The events pushed but not yet polled, oldest first. */
  function Pending(q: QueueView): seq<Event>
    requires Valid(q)
  {
    q.events[q.pollIndex..q.pushCount]
  }

  /** The zero-filled queue as allocated. */
  function Empty(): (q: QueueView)
    ensures Valid(q) && Pending(q) == []
  {
    QueueView(seq(MAX_EVENT_COUNT, _ => Zeroed), 0, 0)
  }

  /**
   * PushEvent_Internal: the event is stored at pushCount while there is room;
   * once pushCount has reached MAX_EVENT_COUNT the event is dropped.
   */
  function Push(q: QueueView, e: Event): (r: QueueView)
    requires Valid(q)
    ensures Valid(r)
    ensures q.pushCount < MAX_EVENT_COUNT ==> Pending(r) == Pending(q) + [e]
    ensures q.pushCount == MAX_EVENT_COUNT ==> r == q
    ensures r.pollIndex == q.pollIndex
  {
    if q.pushCount < MAX_EVENT_COUNT then
      var r := QueueView(q.events[q.pushCount := e], q.pollIndex, q.pushCount + 1);
      assert Pending(r) == Pending(q) + [e] by {
        assert forall i :: q.pollIndex <= i < q.pushCount ==> r.events[i] == q.events[i];
      }
      r
    else
      q
  }

  /** What PollWindowEvent leaves behind: the new state, its result and the `ev` argument. */
  datatype Polled = Polled(queue: QueueView, result: bool, ev: Event)

  /**
   * PollWindowEvent: hands out the oldest pending event; the first poll that
   * finds nothing pending after some pushes resets both counters to 0; `ev`
   * keeps its old value whenever the result is false.
   */
  function Poll(q: QueueView, ev: Event): (p: Polled)
    requires Valid(q)
    ensures Valid(p.queue)
    ensures p.result <==> Pending(q) != []
    ensures p.result ==> p.ev == Pending(q)[0] && Pending(p.queue) == Pending(q)[1..]
    ensures !p.result ==> p.ev == ev && Pending(p.queue) == []
    ensures !p.result && q.pushCount > 0 ==> p.queue.pollIndex == 0 && p.queue.pushCount == 0
    ensures !p.result && q.pushCount == 0 ==> p.queue == q
    ensures p.queue.events == q.events
  {
    if q.pushCount > 0 && q.pollIndex < q.pushCount then
      Polled(QueueView(q.events, q.pollIndex + 1, q.pushCount), true, q.events[q.pollIndex])
    else if q.pushCount > 0 then
      Polled(QueueView(q.events, 0, 0), false, ev)
    else
      Polled(q, false, ev)
  }

  /** Pushes the events one after another. */
  function PushAll(q: QueueView, es: seq<Event>): (r: QueueView)
    requires Valid(q)
    ensures Valid(r)
    decreases |es|
  {
    if es == [] then q else PushAll(Push(q, es[0]), es[1..])
  }

  /** Pushing two runs one after the other is pushing their concatenation. */
  lemma {:induction false} PushAllConcat(q: QueueView, a: seq<Event>, b: seq<Event>)
    requires Valid(q)
    ensures PushAll(q, a + b) == PushAll(PushAll(q, a), b)
    decreases |a|
  {
    if a == [] {
      assert a + b == b;
    } else {
      assert (a + b)[0] == a[0] && (a + b)[1..] == a[1..] + b;
      PushAllConcat(Push(q, a[0]), a[1..], b);
    }
  }

  /** Polls `n` times and collects the events handed out. */
  function PollMany(q: QueueView, n: nat): (r: (seq<Event>, QueueView))
    requires Valid(q)
    ensures Valid(r.1)
    decreases n
  {
    if n == 0 then ([], q)
    else
      var p := Poll(q, Zeroed);
      var rest := PollMany(p.queue, n - 1);
      (if p.result then [p.ev] + rest.0 else rest.0, rest.1)
  }

  function Min(a: nat, b: nat): nat
  {
    if a <= b then a else b
  }

  /**
   * A run of pushes appends the events that still fit, in order, and loses
   * the newest ones once pushCount has reached MAX_EVENT_COUNT.
   */
  lemma {:induction false} PushAllAppends(q: QueueView, es: seq<Event>)
    requires Valid(q)
    ensures Pending(PushAll(q, es)) == Pending(q) + es[..Min(|es|, MAX_EVENT_COUNT - q.pushCount)]
    ensures PushAll(q, es).pushCount == q.pushCount + Min(|es|, MAX_EVENT_COUNT - q.pushCount)
    decreases |es|
  {
    if es != [] {
      var q1 := Push(q, es[0]);
      PushAllAppends(q1, es[1..]);
      var k := Min(|es|, MAX_EVENT_COUNT - q.pushCount);
      if q.pushCount < MAX_EVENT_COUNT {
        assert Pending(q1) == Pending(q) + [es[0]];
        assert Min(|es| - 1, MAX_EVENT_COUNT - q1.pushCount) == k - 1;
        assert es[..k] == [es[0]] + es[1..][..k - 1];
      } else {
        assert q1 == q && k == 0;
      }
    }
  }

  /** Polling hands the pending events out in the order they were pushed. */
  lemma {:induction false} PollManyInOrder(q: QueueView, n: nat)
    requires Valid(q) && n <= |Pending(q)|
    ensures PollMany(q, n).0 == Pending(q)[..n]
    ensures Pending(PollMany(q, n).1) == Pending(q)[n..]
    decreases n
  {
    if n > 0 {
      var q1 := QueueView(q.events, q.pollIndex + 1, q.pushCount);
      assert Poll(q, Zeroed) == Polled(q1, true, q.events[q.pollIndex]);
      PollManyInOrder(q1, n - 1);
      var rest := PollMany(q1, n - 1);
      assert PollMany(q, n) == ([q.events[q.pollIndex]] + rest.0, rest.1);
      assert Pending(q1) == Pending(q)[1..];
      assert Pending(q)[..n] == [Pending(q)[0]] + Pending(q1)[..n - 1];
      assert Pending(q)[n..] == Pending(q1)[n - 1..];
    }
  }

  /** First in, first out: what is pushed into a fresh queue comes back out unchanged. */
  lemma FirstInFirstOut(es: seq<Event>)
    requires |es| <= MAX_EVENT_COUNT
    ensures PollMany(PushAll(Empty(), es), |es|).0 == es
  {
    var q0 := Empty();
    var q := PushAll(q0, es);
    PushAllAppends(q0, es);
    assert Min(|es|, MAX_EVENT_COUNT - q0.pushCount) == |es|;
    assert Pending(q) == es by {
      assert Pending(q0) == [] && es[..|es|] == es;
    }
    PollManyInOrder(q, |es|);
  }

  /**
   * The counters only reset on a poll that finds the queue drained: a queue
   * whose pushes reached MAX_EVENT_COUNT drops every new event, even when all
   * of its events have been polled, until that poll happens.
   */
  lemma FullUntilDrainedPoll(q: QueueView, e: Event, ev: Event)
    requires Valid(q) && q.pushCount == MAX_EVENT_COUNT && q.pollIndex == MAX_EVENT_COUNT
    ensures Pending(Push(q, e)) == []
    ensures var p := Poll(q, ev); !p.result && Pending(Push(p.queue, e)) == [e]
  {
    var p := Poll(q, ev);
    assert Pending(Push(p.queue, e)) == Pending(p.queue) + [e];
  }

  /** The queue itself, updated in place. */
  class Queue {
    var events: array<Event>
    var pollIndex: nat
    var pushCount: nat

    ghost predicate Valid()
      reads this
    {
      events.Length == MAX_EVENT_COUNT && pollIndex <= pushCount <= MAX_EVENT_COUNT
    }

    function View(): QueueView
      reads this, events
    {
      QueueView(events[..], pollIndex, pushCount)
    }

    /** The zero-filled memory the platform allocates for the queue. */
    constructor()
      ensures Valid() && View() == Empty()
      ensures fresh(events)
    {
      events := new Event[MAX_EVENT_COUNT](_ => Zeroed);
      pollIndex := 0;
      pushCount := 0;
    }

    /** PushEvent_Internal (final_platform_layer.hpp:3331-3339). */
    method PushEvent(e: Event)
      requires Valid()
      modifies this, events
      ensures Valid() && events == old(events)
      ensures View() == Push(old(View()), e)
    {
      if pushCount < MAX_EVENT_COUNT {
        var eventIndex := pushCount;
        pushCount := pushCount + 1;
        events[eventIndex] := e;
      }
    }

    /** PollWindowEvent (final_platform_layer.hpp:3958-3971); `ev` is the caller's event. */
    method PollWindowEvent(ev: Event) returns (result: bool, evAfter: Event)
      requires Valid()
      modifies this
      ensures Valid() && events == old(events)
      ensures Poll(old(View()), ev) == Polled(View(), result, evAfter)
    {
      result := false;
      evAfter := ev;
      if pushCount > 0 && pollIndex < pushCount {
        var eventIndex := pollIndex;
        pollIndex := pollIndex + 1;
        evAfter := events[eventIndex];
        result := true;
      } else if pushCount > 0 {
        pollIndex := 0;
        pushCount := 0;
      }
    }
  }
}
