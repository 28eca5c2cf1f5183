/** The event stream of subproc_generator (engine/utils.py:290-325): a worker
    puts the events of the wrapped generator on a queue and then a final
    None; the caller forwards what it receives until that None or until a
    receive times out. Process start, terminate, join and close are not
    modelled; the caller's receives are given as their outcomes. */
module Subproc {
  import opened Wrappers

  const TleStatus: string := "TIME_LIMIT_EXCEEDED"
  const TleMessage: string := "Time Limit Exceeded"

  /** The multiprocessing queue between worker and caller, as the sequence of
      items put on it; a Python None is the item None. */
  class EventQueue<E> {
    var items: seq<Option<E>>

    constructor ()
      ensures items == []
    {
      items := [];
    }

    /** my_queue.put(ev) */
    method Put(ev: Option<E>)
      modifies this
      ensures items == old(items) + [ev]
    {
      items := items + [ev];
    }
  }

  /** subproc_wrapper: the worker puts every event the generator produced, in
      order, then None in the `finally` block. `produced` is what the generator
      yielded before it finished or raised; `raised` says whether it raised.
      The queue ends the same way in both cases; the exception itself only
      ends the worker process, which the caller never sees. */
  method SubprocWrapper<E>(q: EventQueue<E>, produced: seq<Option<E>>, raised: bool) returns (workerFailed: bool)
    modifies q
    ensures q.items == old(q.items) + produced + [None]
    ensures workerFailed == raised
  {
    for i := 0 to |produced|
      invariant q.items == old(q.items) + produced[..i]
    {
      q.Put(produced[i]);
    }
    q.Put(None);
    workerFailed := raised;
  }

  /** The outcome of one my_queue.get(timeout=timeout). */
  datatype Receive<E> = Got(item: Option<E>) | Empty

  /** What the caller yields: a received item (None included), or the
      time-limit record. */
  datatype Yield<E> =
    | Item(value: Option<E>)
    | TimeLimitExceeded(status: string, message: string, timeout: real)

  /** A receive after which the caller stops: None or a timeout. */
  predicate EndsStream<E>(o: Receive<E>) {
    o == Got(None) || o.Empty?
  }

  /** A yielded element after which nothing else is yielded. */
  predicate IsTerminal<E>(y: Yield<E>) {
    y == Item(None) || y.TimeLimitExceeded?
  }

  function TleRecord<E>(timeout: real): (y: Yield<E>)
    ensures y.TimeLimitExceeded? && y.status == "TIME_LIMIT_EXCEEDED" && y.message == "Time Limit Exceeded"
  {
    TimeLimitExceeded(TleStatus, TleMessage, timeout)
  }

  /** The received items, each wrapped as yielded. */
  function Forwarded<E>(items: seq<Option<E>>): (r: seq<Yield<E>>)
    ensures |r| == |items| && forall i :: 0 <= i < |items| ==> r[i] == Item(items[i])
  {
    seq(|items|, i requires 0 <= i < |items| => Item(items[i]))
  }

  /** The items of a run of successful receives. */
  function Received<E>(outcomes: seq<Receive<E>>): (r: seq<Option<E>>)
    requires forall i :: 0 <= i < |outcomes| ==> outcomes[i].Got?
    ensures |r| == |outcomes| && forall i :: 0 <= i < |outcomes| ==> r[i] == outcomes[i].item
  {
    seq(|outcomes|, i requires 0 <= i < |outcomes| => outcomes[i].item)
  }

  /** The sequence the caller yields for the given receive outcomes. If the
      outcomes run out before the stream ends, the consumer stopped pulling
      and the generator stays suspended. */
  function Stream<E>(outcomes: seq<Receive<E>>, timeout: real): (ys: seq<Yield<E>>)
    ensures |ys| <= |outcomes|
  {
    if outcomes == [] then []
    else match outcomes[0]
      case Empty => [TleRecord(timeout)]
      case Got(None) => [Item(None)]
      case Got(Some(e)) => [Item(Some(e))] + Stream(outcomes[1..], timeout)
  }

  /** The first receive that ends the stream, if any. */
  function FirstEnd<E>(outcomes: seq<Receive<E>>): (k: nat)
    ensures k <= |outcomes|
    ensures k < |outcomes| ==> EndsStream(outcomes[k])
    ensures forall i :: 0 <= i < k ==> !EndsStream(outcomes[i])
  {
    if outcomes == [] || EndsStream(outcomes[0]) then 0 else 1 + FirstEnd(outcomes[1..])
  }

  /** wrapper's receive loop: yield each received event, stop right after
      None; on the first timeout yield the time-limit record and stop. */
  method Wrapper<E>(outcomes: seq<Receive<E>>, timeout: real) returns (yielded: seq<Yield<E>>)
    ensures yielded == Stream(outcomes, timeout)
  {
    yielded := [];
    var i := 0;
    while i < |outcomes|
      invariant 0 <= i <= |outcomes|
      invariant forall j :: 0 <= j < i ==> outcomes[j].Got? && outcomes[j].item.Some?
      invariant yielded + Stream(outcomes[i..], timeout) == Stream(outcomes, timeout)
    {
      match outcomes[i] {
        case Got(event) =>
          yielded := yielded + [Item(event)];
          if event == None {
            assert Stream(outcomes[i..], timeout) == [Item(None)];
            break;
          }
          assert Stream(outcomes[i..], timeout) == [Item(event)] + Stream(outcomes[i + 1..], timeout);
        case Empty =>
          yielded := yielded + [TleRecord(timeout)];
          assert Stream(outcomes[i..], timeout) == [TleRecord(timeout)];
          break;
      }
      i := i + 1;
    }
  }

  /** The caller yields the items received before the first None or timeout,
      in order, then exactly one terminal element, and nothing after it. */
  lemma {:induction false} StreamShape<E>(outcomes: seq<Receive<E>>, timeout: real)
    ensures var k := FirstEnd(outcomes); var ys := Stream(outcomes, timeout);
      && |ys| == (if k < |outcomes| then k + 1 else k)
      && ys[..k] == Forwarded(Received(outcomes[..k]))
      && (k < |outcomes| ==> IsTerminal(ys[k]))
      && (k < |outcomes| && outcomes[k].Empty? ==>
            ys[k] == TimeLimitExceeded("TIME_LIMIT_EXCEEDED", "Time Limit Exceeded", timeout))
      && (k < |outcomes| && outcomes[k].Got? ==> ys[k] == Item(None))
      && forall i :: 0 <= i < k ==> !IsTerminal(ys[i])
  {
    if outcomes != [] && !EndsStream(outcomes[0]) {
      StreamShape(outcomes[1..], timeout);
      var k := FirstEnd(outcomes);
      assert outcomes[1..][..k - 1] == outcomes[..k][1..];
    }
  }

  /** Ordering: when every receive delivers the next queued item in time,
      the caller yields the worker's events in order, then None. */
  lemma {:induction false} NormalRunDeliversAll<E>(produced: seq<E>, outcomes: seq<Receive<E>>, timeout: real)
    requires |outcomes| >= |produced| + 1
    requires forall i :: 0 <= i < |produced| ==> outcomes[i] == Got(Some(produced[i]))
    requires outcomes[|produced|] == Got(None)
    ensures Stream(outcomes, timeout) == Forwarded(Somes(produced)) + [Item(None)]
  {
    if produced != [] {
      NormalRunDeliversAll(produced[1..], outcomes[1..], timeout);
      assert Somes(produced) == [Some(produced[0])] + Somes(produced[1..]);
    }
  }

  /** Each event as the Python value put on the queue. */
  function Somes<E>(events: seq<E>): (r: seq<Option<E>>)
    ensures |r| == |events| && forall i :: 0 <= i < |events| ==> r[i] == Some(events[i])
  {
    seq(|events|, i requires 0 <= i < |events| => Some(events[i]))
  }

  /** Timeout: after the items of a prefix arrived, the first receive that
      times out ends the stream with exactly one time-limit record. */
  lemma {:induction false} TimeoutEndsStream<E>(prefix: seq<E>, outcomes: seq<Receive<E>>, timeout: real)
    requires |outcomes| > |prefix|
    requires forall i :: 0 <= i < |prefix| ==> outcomes[i] == Got(Some(prefix[i]))
    requires outcomes[|prefix|].Empty?
    ensures Stream(outcomes, timeout) ==
      Forwarded(Somes(prefix)) + [TimeLimitExceeded("TIME_LIMIT_EXCEEDED", "Time Limit Exceeded", timeout)]
  {
    if prefix != [] {
      TimeoutEndsStream(prefix[1..], outcomes[1..], timeout);
      assert Somes(prefix) == [Some(prefix[0])] + Somes(prefix[1..]);
    }
  }

  /** Receives that agree with the queue: a receive that got an item got the
      next item the worker put. */
  ghost predicate AgreesWithQueue<E>(queued: seq<Option<E>>, outcomes: seq<Receive<E>>) {
    forall i :: 0 <= i < |outcomes| && outcomes[i].Got? ==> i < |queued| && outcomes[i].item == queued[i]
  }

  /** With receives that agree with the queue, the stream ends no later
      than the receive after the last queued item. */
  lemma {:induction false} FirstEndWithinQueue<E>(queued: seq<Option<E>>, outcomes: seq<Receive<E>>)
    requires AgreesWithQueue(queued, outcomes)
    ensures FirstEnd(outcomes) <= |queued|
  {
    if outcomes != [] && !EndsStream(outcomes[0]) {
      assert 0 < |queued|;
      FirstEndWithinQueue(queued[1..], outcomes[1..]);
    }
  }

  /** A worker that dies after putting some events but before its None (a
      crash in native code) is seen as a timeout: if the caller keeps
      receiving, the stream ends with the time-limit record and never with None. */
  lemma {:induction false} CrashLooksLikeTimeout<E>(queued: seq<E>, outcomes: seq<Receive<E>>, timeout: real)
    requires AgreesWithQueue(Somes(queued), outcomes)
    requires |outcomes| > |queued|
    ensures var ys := Stream(outcomes, timeout);
      |ys| > 0 && ys[|ys| - 1] == TleRecord(timeout) && Item(None) !in ys
  {
    var k := FirstEnd(outcomes);
    StreamShape(outcomes, timeout);
    FirstEndWithinQueue(Somes(queued), outcomes);
    assert outcomes[k].Empty?;
    var ys := Stream(outcomes, timeout);
    assert forall i :: 0 <= i < k ==> ys[i] != Item(None);
  }

  /** The sentinel is an ordinary None: when the wrapped generator itself
      yields None, the caller stops there and the later events are lost. */
  lemma {:induction false} ProducedNoneEndsStream<E>(produced: seq<Option<E>>, k: nat, outcomes: seq<Receive<E>>, timeout: real)
    requires k < |produced| && produced[k] == None
    requires forall i :: 0 <= i < k ==> produced[i].Some?
    requires |outcomes| > k
    requires forall i :: 0 <= i <= k ==> outcomes[i] == Got(produced[i])
    ensures Stream(outcomes, timeout) == Forwarded(produced[..k + 1])
  {
    if k > 0 {
      ProducedNoneEndsStream(produced[1..], k - 1, outcomes[1..], timeout);
      assert produced[..k + 1] == [produced[0]] + produced[1..][..k];
    }
  }

  /** End to end: the worker's queue followed by timely receives of all of it
      yields exactly the events, then None, whether or not the generator raised. */
  method RunToCompletion<E>(produced: seq<E>, raised: bool, timeout: real) returns (yielded: seq<Yield<E>>)
    ensures yielded == Forwarded(Somes(produced)) + [Item(None)]
  {
    var q := new EventQueue<E>();
    var _ := SubprocWrapper(q, Somes(produced), raised);
    var queued := q.items;
    var outcomes := seq(|queued|, i requires 0 <= i < |queued| => Got(queued[i]));
    NormalRunDeliversAll(produced, outcomes, timeout);
    yielded := Wrapper(outcomes, timeout);
  }
}
