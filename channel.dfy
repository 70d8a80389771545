/**
 * Model of `Channel<M>` (cpp_texteditor/Channel.h): a FIFO queue of owned
 * messages. The mutex that serialises the three operations is left out; the
 * channel is a plain sequential object whose `queue` field is the contents of
 * the underlying `std::queue`, head first.
 */
module Channels {
  import opened Wrappers

  /** One pop on queue contents `q`: the head and what remains, or no value on an empty queue. */
  function Dequeue<M>(q: seq<M>): (r: (Option<M>, seq<M>))
    ensures r.0.None? <==> q == []
    ensures r.0.None? ==> r.1 == q
    ensures r.0.Some? ==> [r.0.value] + r.1 == q
  {
    if q == [] then (None, q) else (Some(q[0]), q[1..])
  }

  /** The contents after pushing the messages of `ms` onto `q`, one at a time. */
  function PushAll<M>(q: seq<M>, ms: seq<M>): (r: seq<M>)
    decreases |ms|
  {
    if ms == [] then q else PushAll(q + [ms[0]], ms[1..])
  }

  /** The results of `k` consecutive pops on `q`, and the contents left afterwards. */
  function PopN<M>(q: seq<M>, k: nat): (r: (seq<Option<M>>, seq<M>))
  {
    if k == 0 then ([], q)
    else
      var (m, rest) := Dequeue(q);
      var (ms, left) := PopN(rest, k - 1);
      ([m] + ms, left)
  }

  /** Pushing messages one at a time appends them at the tail, in order. */
  lemma {:induction false} PushAllAppends<M>(q: seq<M>, ms: seq<M>)
    ensures PushAll(q, ms) == q + ms
    decreases |ms|
  {
    if ms != [] {
      PushAllAppends(q + [ms[0]], ms[1..]);
      assert (q + [ms[0]]) + ms[1..] == q + ms;
    }
  }

  /**
   * `k` pops return the first `k` messages in queue order, then null once the
   * queue is exhausted, and leave the rest of the queue.
   */
  lemma {:induction false} PopNYields<M>(q: seq<M>, k: nat)
    ensures |PopN(q, k).0| == k
    ensures forall i :: 0 <= i < k ==> PopN(q, k).0[i] == if i < |q| then Some(q[i]) else None
    ensures PopN(q, k).1 == if k <= |q| then q[k..] else []
  {
    if k > 0 {
      var rest := Dequeue(q).1;
      PopNYields(rest, k - 1);
      var tail := PopN(rest, k - 1).0;
      assert PopN(q, k).0 == [Dequeue(q).0] + tail;
      forall i | 0 < i < k
        ensures PopN(q, k).0[i] == if i < |q| then Some(q[i]) else None
      {
        assert PopN(q, k).0[i] == tail[i - 1];
        if q != [] {
          assert rest == q[1..];
        }
      }
      if q != [] && k <= |q| {
        assert rest[k - 1..] == q[k..];
      }
    }
  }

  /** Popping an empty channel any number of times yields only null and leaves it empty. */
  lemma {:induction false} PopEmptyIdempotent<M>(k: nat)
    ensures PopN<M>([], k).1 == []
    ensures |PopN<M>([], k).0| == k
    ensures forall i :: 0 <= i < k ==> PopN<M>([], k).0[i] == None
  {
    PopNYields<M>([], k);
  }

  /**
   * FIFO and no loss: after pushing `ms` onto an empty channel, the first
   * |ms| pops return exactly `ms` in push order, the next pop returns null,
   * and the channel is empty.
   */
  lemma {:induction false} DrainAfterPushes<M>(ms: seq<M>)
    ensures |PopN(PushAll([], ms), |ms| + 1).0| == |ms| + 1
    ensures forall i :: 0 <= i < |ms| ==> PopN(PushAll([], ms), |ms| + 1).0[i] == Some(ms[i])
    ensures PopN(PushAll([], ms), |ms| + 1).0[|ms|] == None
    ensures PopN(PushAll([], ms), |ms| + 1).1 == []
  {
    PushAllAppends([], ms);
    assert [] + ms == ms;
    PopNYields(ms, |ms| + 1);
  }

  /** The channel: `queue` holds the queued messages, head first. */
  class Channel<M> {
    var queue: seq<M>

    /** A new channel is empty. */
    constructor ()
      ensures queue == []
    {
      queue := [];
    }

    /** Appends `msg` at the tail; the size grows by exactly one. */
    method Push(msg: M)
      modifies this
      ensures queue == old(queue) + [msg]
      ensures |queue| == old(|queue|) + 1
    {
      queue := queue + [msg];
    }

    /**
     * Removes and returns the head; on an empty channel returns null and
     * leaves the channel as it was.
     */
    method Pop() returns (m: Option<M>)
      modifies this
      ensures (m, queue) == Dequeue(old(queue))
      ensures m.Some? ==> |queue| == old(|queue|) - 1
    {
      if queue == [] {
        return None;
      }
      m := Some(queue[0]);
      queue := queue[1..];
    }

    /** The number of queued messages; the channel is not changed. */
    method Size() returns (n: nat)
      ensures n == |queue|
    {
      n := |queue|;
    }
  }
}
