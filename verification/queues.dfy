/**
 An idealised FIFO queue, seen one atomic operation at a time.

 Both workers keep their messages in such queues: `put` appends at the back,
 and `get_nowait` either removes the front element or, on an empty queue,
 raises `Queue.Empty` and leaves it unchanged. The process-shared queue the
 workers really use can also raise `Queue.Empty` while elements are pending
 (another process holds its read lock, or a `put` is not yet flushed); this
 module does not model that.
 */
module Queues {
  import opened Messages

  /** The outcome of a non-blocking get: the element taken, if any, and what is left. */
  datatype Popped = Popped(msg: Option<Msg>, rest: seq<Msg>)

  /** The outcome of emptying a queue: what was discarded, in order, and what is left. */
  datatype Drained = Drained(discarded: seq<Msg>, rest: seq<Msg>)

  /** `put`: the old contents are kept, in order, and `m` is added at the back. */
  function Put(q: seq<Msg>, m: Msg): (r: seq<Msg>)
    ensures |r| == |q| + 1
    ensures r[..|q|] == q
    ensures r[|q|] == m
  {
    q + [m]
  }

  /**
   `get_nowait`: on an empty queue nothing is returned and nothing changes;
   otherwise the front element is returned and removed.
   */
  function GetNowait(q: seq<Msg>): (r: Popped)
    ensures r.msg.None? <==> |q| == 0
    ensures r.msg.None? ==> r.rest == q
    ensures r.msg.Some? ==> [r.msg.value] + r.rest == q
  {
    if |q| == 0 then Popped(None, q) else Popped(Some(q[0]), q[1..])
  }

  /**
   The `while True: get_nowait()` loop that stops at `Queue.Empty`: every
   pending element is discarded, front first, and the queue ends empty.
   */
  function DrainAll(q: seq<Msg>): (r: Drained)
    ensures r.discarded == q
    ensures r.rest == []
    decreases |q|
  {
    var p := GetNowait(q);
    if p.msg.None? then
      Drained([], p.rest)
    else
      var d := DrainAll(p.rest);
      Drained([p.msg.value] + d.discarded, d.rest)
  }

  /**
   Chaining two FIFO accounts: if a first step hands out `out1` and leaves
   `mid`, accounting for `q` plus `added1`, and the rest of a run hands out
   `out2` and leaves `last`, accounting for `mid` plus `added2`, then the whole
   run accounts for `q` plus `added1 + added2`.
   */
  lemma ChainAccounts(q: seq<Msg>, out1: seq<Msg>, mid: seq<Msg>, added1: seq<Msg>,
                      out2: seq<Msg>, last: seq<Msg>, added2: seq<Msg>)
    requires out1 + mid == q + added1
    requires out2 + last == mid + added2
    ensures (out1 + out2) + last == q + (added1 + added2)
  {
    calc {
      (out1 + out2) + last;
      out1 + (out2 + last);
      (out1 + mid) + added2;
    }
  }

  /**
   FIFO: whatever was queued before `m` comes out before it, and a get on a
   queue that held only what was put hands back exactly that element.
   */
  lemma PutThenGet(q: seq<Msg>, m: Msg)
    ensures GetNowait(Put(q, m)).msg == Some(if |q| == 0 then m else q[0])
    ensures |q| == 0 ==> GetNowait(Put(q, m)).rest == []
    ensures |q| > 0 ==> GetNowait(Put(q, m)).rest == Put(GetNowait(q).rest, m)
  {
  }
}
