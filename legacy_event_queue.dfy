/**
 * The older input queue of the game tree (game/src/engine/threadsafe_queue.hpp):
 * same `data` vector, appended to by `enqueue` and moved out by `dequeue`.
 * Its call histories are those of module EventQueue (`Enqueue`/`DequeueAll`
 * there stand for `enqueue`/`dequeue` here), so the history lemmas proved
 * there hold for it too; `Replay` below runs this class over such a history.
 */
module LegacyEventQueue {
  import EQ = EventQueue

  class EventQueue<T> {
    var data: seq<T>
    /** Every event ever enqueued, in order. */
    ghost var received: seq<T>
    /** Every event ever returned by dequeue, in order. */
    ghost var delivered: seq<T>

    ghost predicate Valid()
      reads this
    {
      received == delivered + data
    }

    constructor ()
      ensures Valid() && data == [] && received == [] && delivered == []
    {
      data, received, delivered := [], [], [];
    }

    /** `enqueue(t)`: the batch's elements go at the end, in order. */
    method Enqueue(t: seq<T>)
      requires Valid()
      modifies this
      ensures Valid()
      ensures data == old(data) + t
      ensures received == old(received) + t && delivered == old(delivered)
    {
      data := data + t;
      received := received + t;
    }

    /** `dequeue()`: everything pending, leaving the queue empty; `{}` when empty. */
    method Dequeue() returns (r: seq<T>)
      requires Valid()
      modifies this
      ensures Valid()
      ensures r == old(data) && data == []
      ensures delivered == old(delivered) + r && received == old(received)
    {
      if |data| > 0 {
        r := data;
        data := [];
      } else {
        r := [];
      }
      delivered := delivered + r;
    }
  }

  /** Runs a history on a fresh legacy queue: the same results as module EventQueue's. */
  method Replay<T>(ops: seq<EQ.Op<T>>) returns (results: seq<seq<T>>, left: seq<T>)
    ensures results == EQ.Delivered([], ops)
    ensures left == EQ.Pending([], ops)
  {
    var q := new EventQueue<T>();
    results := [];
    var i := 0;
    while i < |ops|
      invariant 0 <= i <= |ops|
      invariant q.Valid()
      invariant results == EQ.Delivered([], ops[..i])
      invariant q.data == EQ.Pending([], ops[..i])
    {
      assert ops[..i + 1][..i] == ops[..i];
      match ops[i] {
        case Enqueue(b) =>
          q.Enqueue(b);
        case DequeueAll =>
          var r := q.Dequeue();
          results := results + [r];
      }
      i := i + 1;
    }
    assert ops[..i] == ops;
    left := q.data;
  }
}
