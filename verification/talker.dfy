/**
 The Talker worker: it owns an outbound FIFO queue that the owning node fills
 with `send_message`, and a publish loop that, once per iteration, takes the
 oldest queued message (if any) and publishes it to every subscriber.
 */
module Talker {
  import opened Messages
  import opened Queues

  /** The Talker's state: the port it publishes from and its outbound queue. */
  datatype State = State(port: Id, outbound: seq<Msg>)

  /** The outcome of one publish-loop iteration: what was published, if anything. */
  datatype Emitted = Emitted(msg: Option<Msg>, state: State)

  /** A fresh Talker for identity `port`: nothing queued yet. */
  function Init(port: Id): (t: State)
    ensures t.port == port && |t.outbound| == 0
  {
    State(port, [])
  }

  /** `send_message`: never blocks; the message joins the back of the queue. */
  function SendMessage(t: State, m: Msg): (t': State)
    ensures t'.outbound == t.outbound + [m]
    ensures t'.port == t.port
  {
    t.(outbound := Put(t.outbound, m))
  }

  /**
   One publish-loop iteration. On an empty queue (`Queue.Empty`) nothing is
   published and nothing changes; otherwise the oldest message is published
   and removed.
   */
  function PublishStep(t: State): (r: Emitted)
    ensures r.msg.None? <==> |t.outbound| == 0
    ensures r.msg.None? ==> r.state == t
    ensures r.msg.Some? ==> t.outbound == [r.msg.value] + r.state.outbound
    ensures r.state.port == t.port
  {
    var p := GetNowait(t.outbound);
    Emitted(p.msg, t.(outbound := p.rest))
  }

  /** What can happen to a Talker: the node sends, or the loop iterates once. */
  datatype Event = Send(msg: Msg) | Publish

  /** A run's end state and everything published during it, in order. */
  datatype Outcome = Outcome(final: State, published: seq<Msg>)

  /** The messages handed to `send_message` during `es`. */
  function Sent(es: seq<Event>): seq<Msg>
    decreases |es|
  {
    if |es| == 0 then []
    else (if es[0].Send? then [es[0].msg] else []) + Sent(es[1..])
  }

  /** `n` consecutive publish-loop iterations with no intervening sends. */
  function Publishes(n: nat): (es: seq<Event>)
    ensures |es| == n
    ensures forall i | 0 <= i < n :: es[i] == Publish
  {
    seq(n, _ => Publish)
  }

  /** One event's effect. */
  function Apply(t: State, e: Event): (o: Outcome)
    ensures o.final.port == t.port
  {
    match e
    case Send(m) => Outcome(SendMessage(t, m), [])
    case Publish =>
      var r := PublishStep(t);
      Outcome(r.state, if r.msg.Some? then [r.msg.value] else [])
  }

  /** The events `es`, applied in order from `t`. The port never changes. */
  function Run(t: State, es: seq<Event>): (o: Outcome)
    ensures o.final.port == t.port
    decreases |es|
  {
    if |es| == 0 then Outcome(t, [])
    else
      var first := Apply(t, es[0]);
      var rest := Run(first.final, es[1..]);
      Outcome(rest.final, first.published + rest.published)
  }

  /**
   FIFO publication: over any run, what was published followed by what is
   still queued is exactly the initial queue followed by every sent message,
   in the order sent. In particular what was published is a prefix of that.
   */
  lemma {:induction false} OutboundFifo(t: State, es: seq<Event>)
    ensures Run(t, es).published + Run(t, es).final.outbound == t.outbound + Sent(es)
    decreases |es|
  {
    if |es| > 0 {
      var first := Apply(t, es[0]);
      var rest := Run(first.final, es[1..]);
      OutboundFifo(first.final, es[1..]);
      var head := if es[0].Send? then [es[0].msg] else [];
      assert Sent(es) == head + Sent(es[1..]);
      assert first.published + first.final.outbound == t.outbound + head;
      ChainAccounts(t.outbound, first.published, first.final.outbound, head,
                    rest.published, rest.final.outbound, Sent(es[1..]));
    }
  }

  /** Publication never skips or reorders: the published messages are a prefix of the sent ones. */
  lemma PublishedIsPrefix(t: State, es: seq<Event>)
    requires |t.outbound| == 0
    ensures |Run(t, es).published| <= |Sent(es)|
    ensures Run(t, es).published == Sent(es)[..|Run(t, es).published|]
  {
    OutboundFifo(t, es);
    assert t.outbound + Sent(es) == Sent(es);
  }

  /**
   With no further sends, `n` iterations publish the first `n` queued
   messages, in order, and leave the rest queued.
   */
  lemma {:induction false} PublishesDrain(t: State, n: nat)
    ensures n <= |t.outbound| ==> Run(t, Publishes(n)).published == t.outbound[..n]
    ensures n <= |t.outbound| ==> Run(t, Publishes(n)).final.outbound == t.outbound[n..]
    ensures n >= |t.outbound| ==> Run(t, Publishes(n)).published == t.outbound
    ensures n >= |t.outbound| ==> Run(t, Publishes(n)).final.outbound == []
    decreases n
  {
    if n > 0 {
      var es := Publishes(n);
      assert es[0] == Publish;
      assert es[1..] == Publishes(n - 1);
      var first := Apply(t, Publish);
      PublishesDrain(first.final, n - 1);
      if |t.outbound| > 0 {
        assert t.outbound == [t.outbound[0]] + first.final.outbound;
        if n <= |t.outbound| {
          assert t.outbound[..n] == [t.outbound[0]] + first.final.outbound[..n - 1];
        }
      }
    }
  }

  /** Splitting a run: running `a + b` is running `a`, then `b` from where it ended. */
  lemma {:induction false} RunAppend(t: State, a: seq<Event>, b: seq<Event>)
    ensures Run(t, a + b).final == Run(Run(t, a).final, b).final
    ensures Run(t, a + b).published == Run(t, a).published + Run(Run(t, a).final, b).published
    decreases |a|
  {
    if |a| == 0 {
      assert a + b == b;
    } else {
      assert (a + b)[1..] == a[1..] + b;
      RunAppend(Apply(t, a[0]).final, a[1..], b);
    }
  }

  /**
   Eventual publication: after any run, enough further iterations without
   sends publish everything ever queued or sent, in enqueue order.
   */
  lemma EventuallyPublished(t: State, es: seq<Event>, n: nat)
    requires n >= |Run(t, es).final.outbound|
    ensures Run(t, es + Publishes(n)).published == t.outbound + Sent(es)
    ensures |Run(t, es + Publishes(n)).final.outbound| == 0
  {
    var mid := Run(t, es);
    OutboundFifo(t, es);
    RunAppend(t, es, Publishes(n));
    PublishesDrain(mid.final, n);
  }
}
