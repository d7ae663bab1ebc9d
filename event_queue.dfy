/**
 * The engine's thread-safe input queue (engine/src/threadsafe_queue.hpp).
 *
 * The main thread hands one batch of platform events per iteration to
 * `enqueue`; the game thread drains everything pending with `dequeue_all`.
 * Both run under the queue's mutex, so each call is one atomic step here.
 * The history of calls is described by `Op` sequences, and the functions
 * `Delivered` and `Pending` give what the queue returns and still holds
 * after such a history; the class is proved against them.
 */
module EventQueue {

  /** One call on the queue. */
  datatype Op<T> = Enqueue(batch: seq<T>) | DequeueAll

  /** Concatenation of a sequence of batches, in order. */
  function Flatten<T>(bs: seq<seq<T>>): seq<T>
  {
    if bs == [] then [] else Flatten(bs[..|bs| - 1]) + bs[|bs| - 1]
  }

  /** Everything the enqueue calls of `ops` hand to the queue, in call order. */
  function Enqueued<T>(ops: seq<Op<T>>): seq<T>
  {
    if ops == [] then []
    else
      var prev := Enqueued(ops[..|ops| - 1]);
      match ops[|ops| - 1]
      case Enqueue(b) => prev + b
      case DequeueAll => prev
  }

  /** What the queue holds after `ops`, starting from pending contents `p`. */
  function Pending<T>(p: seq<T>, ops: seq<Op<T>>): seq<T>
  {
    if ops == [] then p
    else
      match ops[|ops| - 1]
      case Enqueue(b) => Pending(p, ops[..|ops| - 1]) + b
      case DequeueAll => []
  }

  /** The results of the dequeue_all calls of `ops`, in call order. */
  function Delivered<T>(p: seq<T>, ops: seq<Op<T>>): seq<seq<T>>
  {
    if ops == [] then []
    else
      var init := ops[..|ops| - 1];
      match ops[|ops| - 1]
      case Enqueue(_) => Delivered(p, init)
      case DequeueAll => Delivered(p, init) + [Pending(p, init)]
  }

  /**
   * Nothing is lost and nothing is duplicated: the results of all
   * dequeue_all calls, followed by what is still pending, are exactly the
   * pending start followed by every enqueued event, each once and in order.
   */
  lemma {:induction false} NothingLostOrDuplicated<T>(p: seq<T>, ops: seq<Op<T>>)
    ensures Flatten(Delivered(p, ops)) + Pending(p, ops) == p + Enqueued(ops)
  {
    if ops != [] {
      var init := ops[..|ops| - 1];
      NothingLostOrDuplicated(p, init);
      match ops[|ops| - 1]
      case Enqueue(b) =>
        assert Flatten(Delivered(p, init)) + (Pending(p, init) + b)
            == (Flatten(Delivered(p, init)) + Pending(p, init)) + b;
      case DequeueAll =>
        var d := Delivered(p, init) + [Pending(p, init)];
        assert d[..|d| - 1] == Delivered(p, init);
    }
  }

  /** Only enqueue calls, no dequeue_all among them. */
  ghost predicate OnlyEnqueues<T>(ops: seq<Op<T>>)
  {
    forall i :: 0 <= i < |ops| ==> ops[i].Enqueue?
  }

  /**
   * A dequeue_all returns exactly the concatenation of the batches enqueued
   * since the previous dequeue_all.
   */
  lemma {:induction false} DequeueReturnsSinceLast<T>(p: seq<T>, before: seq<Op<T>>, since: seq<Op<T>>)
    requires OnlyEnqueues(since)
    ensures Pending(p, before + [DequeueAll] + since) == Enqueued(since)
    ensures var ops := before + [DequeueAll] + since + [DequeueAll];
            Delivered(p, ops)[|Delivered(p, ops)| - 1] == Enqueued(since)
  {
    var pre := before + [DequeueAll];
    if since == [] {
      assert pre + since == pre;
      assert pre[..|pre| - 1] == before;
    } else {
      var init := since[..|since| - 1];
      assert OnlyEnqueues(init) by {
        forall i | 0 <= i < |init| ensures init[i].Enqueue? {
          assert init[i] == since[i];
        }
      }
      DequeueReturnsSinceLast(p, before, init);
      assert (pre + since)[..|pre + since| - 1] == pre + init;
      assert since[|since| - 1].Enqueue?;
    }
    var ops := pre + since + [DequeueAll];
    assert ops[..|ops| - 1] == pre + since;
  }

  /** Two dequeue_all calls with no enqueue in between: the second returns nothing. */
  lemma SecondDequeueEmpty<T>(p: seq<T>, before: seq<Op<T>>)
    ensures var ops := before + [DequeueAll, DequeueAll];
            Delivered(p, ops)[|Delivered(p, ops)| - 1] == []
  {
    var ops := before + [DequeueAll, DequeueAll];
    assert ops[..|ops| - 1] == before + [DequeueAll];
  }

  /** Enqueuing an empty batch changes nothing the queue holds or returns. */
  lemma EmptyBatchIsNoOp<T>(p: seq<T>, before: seq<Op<T>>)
    ensures Pending(p, before + [Enqueue([])]) == Pending(p, before)
    ensures Delivered(p, before + [Enqueue([])]) == Delivered(p, before)
  {
    var ops := before + [Enqueue([])];
    assert ops[..|ops| - 1] == before;
  }

  /**
   * Results already returned are never revised by later calls: the results
   * of a history are a prefix of the results of any extension of it, so a
   * batch enqueued after a dequeue_all cannot show up in that or an earlier
   * dequeue_all's result.
   */
  lemma {:induction false} EarlierResultsFixed<T>(p: seq<T>, ops: seq<Op<T>>, later: seq<Op<T>>)
    ensures Delivered(p, ops) <= Delivered(p, ops + later)
  {
    if later != [] {
      var init := later[..|later| - 1];
      EarlierResultsFixed(p, ops, init);
      var all := ops + later;
      assert all[..|all| - 1] == ops + init;
    } else {
      assert ops + later == ops;
    }
  }

  /** The queue: the `data` vector that enqueue grows and dequeue_all moves out. */
  class EventQueue<T> {
    var data: seq<T>
    /** Every event ever enqueued, in order. */
    ghost var received: seq<T>
    /** Every event ever returned by dequeue_all, in order. */
    ghost var delivered: seq<T>

    ghost predicate Valid()
      reads this
    {
      received == delivered + data
    }

    constructor ()
      ensures Valid() && data == [] && received == [] && delivered == []
    {
      data, received, delivered := [], [], [];
    }

    /** `enqueue(t)`: appends the batch at the end, in order. */
    method Enqueue(t: seq<T>)
      requires Valid()
      modifies this
      ensures Valid()
      ensures data == old(data) + t
      ensures received == old(received) + t && delivered == old(delivered)
    {
      data := data + t;
      received := received + t;
    }

    /**
     * `dequeue_all()`: returns everything pending and leaves the queue empty
     * (the moved-from vector); on an empty queue it returns `{}`.
     */
    method DequeueAll() returns (r: seq<T>)
      requires Valid()
      modifies this
      ensures Valid()
      ensures r == old(data) && data == []
      ensures delivered == old(delivered) + r && received == old(received)
    {
      if |data| > 0 {
        r := data;
        data := [];
      } else {
        r := [];
      }
      delivered := delivered + r;
    }
  }

  /**
   * Runs a history of calls on a fresh queue and returns what the
   * dequeue_all calls gave back and what is left pending: exactly what the
   * history functions say.
   */
  method Replay<T>(ops: seq<Op<T>>) returns (results: seq<seq<T>>, left: seq<T>)
    ensures results == Delivered([], ops)
    ensures left == Pending([], ops)
  {
    var q := new EventQueue<T>();
    results := [];
    var i := 0;
    while i < |ops|
      invariant 0 <= i <= |ops|
      invariant q.Valid()
      invariant results == Delivered([], ops[..i])
      invariant q.data == Pending([], ops[..i])
    {
      assert ops[..i + 1][..i] == ops[..i];
      match ops[i] {
        case Enqueue(b) =>
          q.Enqueue(b);
        case DequeueAll =>
          var r := q.DequeueAll();
          results := results + [r];
      }
      i := i + 1;
    }
    assert ops[..i] == ops;
    left := q.data;
  }
}
