/** The FIFO of `queue.Queue` as the output track uses it: a bounded put that either
    blocks or reports `Full`, a non-blocking get that reports `Empty`, and the direct
    clearing of the underlying deque. */
module BoundedQueue {

  import opened Common

  /** Queue contents, head first, and the `maxsize` it was created with; a
      `maxsize` of zero or less means the queue has no bound. */
  datatype Queue<T> = Queue(items: seq<T>, maxsize: int)

  /** Outcome of a put: the new queue, `queue.Full` for a non-blocking put on a full
      queue, or a blocking put that must wait for space. */
  datatype PutOutcome<T> = Enqueued(queue: Queue<T>) | Full | MustWait

  /** Outcome of a non-blocking get: the head and the remaining queue, or `queue.Empty`. */
  datatype GetOutcome<T> = Got(item: T, rest: Queue<T>) | Empty

  /** A fresh, empty queue. */
  function New<T>(maxsize: int): (q: Queue<T>)
    ensures q.items == [] && q.maxsize == maxsize
    ensures WithinBound(q)
  {
    Queue([], maxsize)
  }

  /** The queue holds at most `maxsize` items, when it has a bound. */
  predicate WithinBound<T>(q: Queue<T>)
  {
    q.maxsize <= 0 || |q.items| <= q.maxsize
  }

  /** `Queue.full()`: the queue has a bound and has reached it. */
  predicate IsFull<T>(q: Queue<T>)
  {
    0 < q.maxsize <= |q.items|
  }

  /** `Queue.put(x, block)`. */
  function Put<T>(q: Queue<T>, x: T, block: bool): (r: PutOutcome<T>)
    ensures r.Enqueued? <==> !IsFull(q)
    ensures r.Full? <==> IsFull(q) && !block
    ensures r.MustWait? <==> IsFull(q) && block
    ensures r.Enqueued? ==> r.queue.items == q.items + [x] && r.queue.maxsize == q.maxsize
    ensures r.Enqueued? && WithinBound(q) ==> WithinBound(r.queue)
  {
    if IsFull(q) then
      if block then MustWait else Full
    else
      Enqueued(Queue(q.items + [x], q.maxsize))
  }

  /** `Queue.get(block=False)`. */
  function GetNowait<T>(q: Queue<T>): (r: GetOutcome<T>)
    ensures r.Empty? <==> |q.items| == 0
    ensures r.Got? ==> [r.item] + r.rest.items == q.items && r.rest.maxsize == q.maxsize
    ensures r.Got? && WithinBound(q) ==> WithinBound(r.rest)
  {
    if |q.items| == 0 then Empty else Got(q.items[0], Queue(q.items[1..], q.maxsize))
  }

  /** `q.queue.clear()`: drops every item and keeps the bound. */
  function Clear<T>(q: Queue<T>): (r: Queue<T>)
    ensures r.items == [] && r.maxsize == q.maxsize
    ensures WithinBound(r)
  {
    Queue([], q.maxsize)
  }

  /** Puts every item without blocking; the items that did not fit are reported back. */
  function PutAll<T>(q: Queue<T>, xs: seq<T>): (r: (Queue<T>, seq<T>))
    decreases |xs|
  {
    if |xs| == 0 then (q, [])
    else
      var put := Put(q, xs[0], false);
      if put.Enqueued? then PutAll(put.queue, xs[1..])
      else var (q', rejected) := PutAll(q, xs[1..]); (q', [xs[0]] + rejected)
  }

  /** Gets `n` items without blocking, or fewer when the queue runs empty. */
  function GetMany<T>(q: Queue<T>, n: nat): (r: (Queue<T>, seq<T>))
    decreases n
  {
    if n == 0 then (q, [])
    else
      match GetNowait(q)
      case Empty => (q, [])
      case Got(x, rest) => var (q', xs) := GetMany(rest, n - 1); (q', [x] + xs)
  }

  /** Items put into an unbounded queue come out in the order they went in, after
      everything that was already queued. */
  lemma {:induction false} FifoRoundTrip<T>(q: Queue<T>, xs: seq<T>)
    requires q.maxsize <= 0
    ensures PutAll(q, xs).1 == []
    ensures PutAll(q, xs).0.items == q.items + xs
    ensures GetMany(PutAll(q, xs).0, |q.items| + |xs|).1 == q.items + xs
    ensures GetMany(PutAll(q, xs).0, |q.items| + |xs|).0.items == []
  {
    PutAllUnbounded(q, xs);
    GetManyDrains(PutAll(q, xs).0);
  }

  lemma {:induction false} PutAllUnbounded<T>(q: Queue<T>, xs: seq<T>)
    requires q.maxsize <= 0
    ensures PutAll(q, xs).1 == []
    ensures PutAll(q, xs).0 == Queue(q.items + xs, q.maxsize)
    decreases |xs|
  {
    if |xs| > 0 {
      var q' := Queue(q.items + [xs[0]], q.maxsize);
      PutAllUnbounded(q', xs[1..]);
      assert q'.items + xs[1..] == q.items + xs;
    }
  }

  /** Getting as many items as the queue holds returns its contents, head first. */
  lemma {:induction false} GetManyDrains<T>(q: Queue<T>)
    ensures GetMany(q, |q.items|).1 == q.items
    ensures GetMany(q, |q.items|).0.items == []
    decreases |q.items|
  {
    if |q.items| > 0 {
      GetManyDrains(Queue(q.items[1..], q.maxsize));
    }
  }

  /** A bounded queue accepts puts until it is full and rejects the rest: of the
      items offered to an empty queue, exactly the first `maxsize` are kept. */
  lemma {:induction false} PutAllKeepsPrefix<T>(q: Queue<T>, xs: seq<T>)
    requires q.maxsize > 0 && |q.items| <= q.maxsize
    ensures var room := q.maxsize - |q.items|;
      && PutAll(q, xs).0.items == q.items + xs[..if |xs| < room then |xs| else room]
      && PutAll(q, xs).1 == xs[if |xs| < room then |xs| else room..]
      && PutAll(q, xs).0.maxsize == q.maxsize
    decreases |xs|
  {
    if |xs| > 0 {
      if IsFull(q) {
        PutAllKeepsPrefix(q, xs[1..]);
        assert xs[0..] == xs;
      } else {
        var q' := Queue(q.items + [xs[0]], q.maxsize);
        PutAllKeepsPrefix(q', xs[1..]);
        var room := q.maxsize - |q.items|;
        var k := if |xs| < room then |xs| else room;
        assert xs[1..][..k - 1] == xs[1..k];
        assert q'.items + xs[1..k] == q.items + xs[..k];
        assert xs[1..][k - 1..] == xs[k..];
      }
    }
  }
}
