/**
 The Listener worker: it subscribes to every peer's stream and, for each
 received message, applies two independent rules.

 - Leader arbitration: a Heartbeat from a sender other than this node proves
   that some other peer currently leads, so every pending leader signal is
   discarded.
 - Addressing: the message enters the inbound queue exactly when it is
   addressed to this node or broadcast (no receiver).

 The owning node polls both queues without blocking and is the only writer
 of the leader queue, modelled here as the environment event `PushSignal`.
 */
module Listener {
  import opened Messages
  import opened Queues

  /** The Listener's state: its own address and its two queues. */
  datatype State = State(me: Id, inbound: seq<Msg>, leader: seq<Msg>)

  /** The outcome of a non-blocking poll by the owning node. */
  datatype Polled = Polled(msg: Option<Msg>, state: State)

  /** A message this node must keep: broadcast, or addressed to it. */
  predicate Admits(me: Id, m: Msg) {
    match m.receiver
    case None => true
    case Some(r) => r == me
  }

  /** A Heartbeat sent by some node other than `me`. */
  predicate ForeignHeartbeat(me: Id, m: Msg) {
    m.mtype.Heartbeat? && m.sender != me
  }

  /** Every message of `q` is one that `me` admits. */
  predicate AllAdmitted(me: Id, q: seq<Msg>) {
    forall m | m in q :: Admits(me, m)
  }

  /** A fresh Listener for identity `me`: both queues are empty. */
  function Init(me: Id): (s: State)
    ensures s.me == me && |s.inbound| == 0 && |s.leader| == 0
  {
    State(me, [], [])
  }

  /**
   The handling of one received message. The leader queue is emptied by the
   drain loop on a foreign Heartbeat and otherwise left exactly as it was;
   independently, the message is appended to the inbound queue exactly when
   it is admitted. Nothing else changes. The whole iteration, drain loop
   included, is taken as one atomic step.
   */
  function Receive(s: State, m: Msg): (s': State)
    ensures s'.me == s.me
    ensures Admits(s.me, m) ==> s'.inbound == s.inbound + [m]
    ensures !Admits(s.me, m) ==> s'.inbound == s.inbound
    ensures ForeignHeartbeat(s.me, m) ==> s'.leader == []
    ensures !ForeignHeartbeat(s.me, m) ==> s'.leader == s.leader
  {
    var leader :=
      if m.mtype == Heartbeat && m.sender != s.me then DrainAll(s.leader).rest
      else s.leader;
    var inbound :=
      if m.receiver == Some(s.me) || m.receiver == None then Put(s.inbound, m)
      else s.inbound;
    State(s.me, inbound, leader)
  }

  /**
   One iteration of the receive loop: `incoming` is what the non-blocking
   receive produced, `None` standing for `zmq.Again`, in which case nothing
   changes.
   */
  function ListenStep(s: State, incoming: Option<Msg>): (s': State)
    ensures incoming.None? ==> s' == s
    ensures incoming.Some? ==> s' == Receive(s, incoming.value)
  {
    match incoming
    case None => s
    case Some(m) => Receive(s, m)
  }

  /**
   `get_message`: `None` on an empty inbound queue, which then stays as it
   is; otherwise the oldest admitted message, removed from the queue. The
   leader queue is not touched.
   */
  function GetMessage(s: State): (r: Polled)
    ensures r.msg.None? <==> |s.inbound| == 0
    ensures r.msg.None? ==> r.state == s
    ensures r.msg.Some? ==> s.inbound == [r.msg.value] + r.state.inbound
    ensures r.state.me == s.me && r.state.leader == s.leader
  {
    var p := GetNowait(s.inbound);
    Polled(p.msg, s.(inbound := p.rest))
  }

  /**
   `get_leader_message`: the same non-blocking pop, on the leader queue; the
   inbound queue is not touched.
   */
  function GetLeaderMessage(s: State): (r: Polled)
    ensures r.msg.None? <==> |s.leader| == 0
    ensures r.msg.None? ==> r.state == s
    ensures r.msg.Some? ==> s.leader == [r.msg.value] + r.state.leader
    ensures r.state.me == s.me && r.state.inbound == s.inbound
  {
    var p := GetNowait(s.leader);
    Polled(p.msg, s.(leader := p.rest))
  }

  /** The owning node queues a leader signal; it only appends. */
  function PushLeader(s: State, signal: Msg): (s': State)
    ensures s'.leader == s.leader + [signal]
    ensures s'.me == s.me && s'.inbound == s.inbound
  {
    s.(leader := Put(s.leader, signal))
  }

  /**
   Python's `max` over a non-empty port list: a configured port that no
   other configured port exceeds.
   */
  function MaxPort(ports: seq<int>): (m: int)
    requires |ports| > 0
    ensures m in ports
    ensures forall i | 0 <= i < |ports| :: ports[i] <= m
    decreases |ports|
  {
    if |ports| == 1 then ports[0]
    else
      var rest := MaxPort(ports[1..]);
      if ports[0] > rest then ports[0] else rest
  }

  /**
   `next_port`: one more than the largest configured peer port. With an
   empty port list Python's `max` raises, modelled as `None`. The result is
   strictly above every peer port and is the successor of one of them.
   */
  function NextPort(ports: seq<int>): (next: Option<int>)
    ensures next.None? <==> |ports| == 0
    ensures next.Some? ==> forall i | 0 <= i < |ports| :: ports[i] < next.value
    ensures next.Some? ==> next.value - 1 in ports
  {
    if |ports| == 0 then None else Some(MaxPort(ports) + 1)
  }

  // ---------------------------------------------------------------------
  // Runs: the Listener's loop interleaved with the owning node's actions.
  // ---------------------------------------------------------------------

  /**
   What can happen to a Listener: one receive-loop iteration, a poll of
   either queue by the owning node, or the node queuing a leader signal.
   */
  datatype Event =
    | Poll(incoming: Option<Msg>)
    | Get
    | GetLeader
    | PushSignal(signal: Msg)

  /** A run's end state and what the node's polls handed out, in order. */
  datatype Outcome = Outcome(final: State, delivered: seq<Msg>, leaderDelivered: seq<Msg>)

  /** The messages the receive loop actually received during `es`. */
  function Received(es: seq<Event>): seq<Msg>
    decreases |es|
  {
    if |es| == 0 then []
    else
      (if es[0].Poll? && es[0].incoming.Some? then [es[0].incoming.value] else [])
      + Received(es[1..])
  }

  /** The leader signals the node queued during `es`. */
  function Pushed(es: seq<Event>): seq<Msg>
    decreases |es|
  {
    if |es| == 0 then []
    else (if es[0].PushSignal? then [es[0].signal] else []) + Pushed(es[1..])
  }

  /** The messages of `ms` that `me` admits, in their original order. */
  function Admitted(me: Id, ms: seq<Msg>): seq<Msg>
    decreases |ms|
  {
    if |ms| == 0 then []
    else (if Admits(me, ms[0]) then [ms[0]] else []) + Admitted(me, ms[1..])
  }

  /** One event's effect. */
  function Apply(s: State, e: Event): (o: Outcome)
    ensures o.final.me == s.me
  {
    match e
    case Poll(incoming) => Outcome(ListenStep(s, incoming), [], [])
    case Get =>
      var p := GetMessage(s);
      Outcome(p.state, if p.msg.Some? then [p.msg.value] else [], [])
    case GetLeader =>
      var p := GetLeaderMessage(s);
      Outcome(p.state, [], if p.msg.Some? then [p.msg.value] else [])
    case PushSignal(signal) => Outcome(PushLeader(s, signal), [], [])
  }

  /** The events `es`, applied in order from `s`. The identity never changes. */
  function Run(s: State, es: seq<Event>): (o: Outcome)
    ensures o.final.me == s.me
    decreases |es|
  {
    if |es| == 0 then Outcome(s, [], [])
    else
      var first := Apply(s, es[0]);
      var rest := Run(first.final, es[1..]);
      Outcome(rest.final, first.delivered + rest.delivered,
              first.leaderDelivered + rest.leaderDelivered)
  }

  lemma {:induction false} AdmittedAppend(me: Id, a: seq<Msg>, b: seq<Msg>)
    ensures Admitted(me, a + b) == Admitted(me, a) + Admitted(me, b)
    decreases |a|
  {
    if |a| == 0 {
      assert a + b == b;
    } else {
      assert (a + b)[1..] == a[1..] + b;
      AdmittedAppend(me, a[1..], b);
    }
  }

  /** The filter keeps only admitted messages. */
  lemma {:induction false} AdmittedIsSound(me: Id, ms: seq<Msg>)
    ensures AllAdmitted(me, Admitted(me, ms))
    decreases |ms|
  {
    if |ms| > 0 {
      AdmittedIsSound(me, ms[1..]);
    }
  }

  /** The filter drops no admitted message. */
  lemma {:induction false} AdmittedIsComplete(me: Id, ms: seq<Msg>, m: Msg)
    requires m in ms && Admits(me, m)
    ensures m in Admitted(me, ms)
    decreases |ms|
  {
    if ms[0] != m {
      AdmittedIsComplete(me, ms[1..], m);
    }
  }

  /**
   FIFO delivery: over any run, the messages the node obtained from
   `get_message`, followed by what is still queued, are exactly the initial
   inbound contents followed by the admitted received messages, in the order
   they were received.
   */
  lemma {:induction false} InboundFifo(s: State, es: seq<Event>)
    ensures Run(s, es).delivered + Run(s, es).final.inbound
         == s.inbound + Admitted(s.me, Received(es))
    decreases |es|
  {
    if |es| > 0 {
      var first := Apply(s, es[0]);
      InboundFifo(first.final, es[1..]);
      var rest := Run(first.final, es[1..]);
      var head := if es[0].Poll? && es[0].incoming.Some? then [es[0].incoming.value] else [];
      assert Received(es) == head + Received(es[1..]);
      AdmittedAppend(s.me, head, Received(es[1..]));
      assert first.delivered + first.final.inbound == s.inbound + Admitted(s.me, head);
      ChainAccounts(s.inbound, first.delivered, first.final.inbound, Admitted(s.me, head),
                    rest.delivered, rest.final.inbound, Admitted(s.me, Received(es[1..])));
    }
  }

  /**
   Addressing soundness over a run: if the inbound queue started with only
   admitted messages, the node is never handed, and the queue never holds, a
   message addressed to another identity. Conversely every admitted message
   received is handed out or still queued.
   */
  lemma AddressingOverRun(s: State, es: seq<Event>)
    requires AllAdmitted(s.me, s.inbound)
    ensures AllAdmitted(s.me, Run(s, es).delivered)
    ensures AllAdmitted(s.me, Run(s, es).final.inbound)
    ensures forall m | m in Received(es) && Admits(s.me, m) ::
              m in Run(s, es).delivered + Run(s, es).final.inbound
  {
    var o := Run(s, es);
    InboundFifo(s, es);
    AdmittedIsSound(s.me, Received(es));
    forall m | m in o.delivered + o.final.inbound
      ensures Admits(s.me, m)
    {
      assert m in s.inbound + Admitted(s.me, Received(es));
    }
    forall m | m in Received(es) && Admits(s.me, m)
      ensures m in o.delivered + o.final.inbound
    {
      AdmittedIsComplete(s.me, Received(es), m);
    }
  }

  /**
   Splitting a run: running `a + b` is running `a`, then `b` from where it
   ended, and what the polls hand out is what each part hands out, in turn.
   */
  lemma {:induction false} RunAppend(s: State, a: seq<Event>, b: seq<Event>)
    ensures Run(s, a + b).final == Run(Run(s, a).final, b).final
    ensures Run(s, a + b).delivered == Run(s, a).delivered + Run(Run(s, a).final, b).delivered
    ensures Run(s, a + b).leaderDelivered
         == Run(s, a).leaderDelivered + Run(Run(s, a).final, b).leaderDelivered
    decreases |a|
  {
    if |a| == 0 {
      assert a + b == b;
    } else {
      assert (a + b)[1..] == a[1..] + b;
      RunAppend(Apply(s, a[0]).final, a[1..], b);
    }
  }

  /** Without new leader signals an empty leader queue stays empty. */
  lemma {:induction false} LeaderStaysEmpty(s: State, es: seq<Event>)
    requires |s.leader| == 0
    requires forall j | 0 <= j < |es| :: !es[j].PushSignal?
    ensures |Run(s, es).final.leader| == 0
    decreases |es|
  {
    if |es| > 0 {
      LeaderStaysEmpty(Apply(s, es[0]).final, es[1..]);
    }
  }

  /**
   Leader arbitration over a run: once a foreign Heartbeat has been
   received, the leader queue holds nothing until the node queues a new
   signal, whatever it held before and whatever else arrives.
   */
  lemma ForeignHeartbeatDrains(s: State, es: seq<Event>, i: nat)
    requires i < |es| && es[i].Poll? && es[i].incoming.Some?
    requires ForeignHeartbeat(s.me, es[i].incoming.value)
    requires forall j | i < j < |es| :: !es[j].PushSignal?
    ensures |Run(s, es).final.leader| == 0
  {
    var before := es[..i];
    var after := es[i + 1..];
    assert es == before + ([es[i]] + after);
    RunAppend(s, before, [es[i]] + after);
    var mid := Run(s, before).final;
    RunAppend(mid, [es[i]], after);
    assert Run(mid, [es[i]]).final == Apply(mid, es[i]).final;
    LeaderStaysEmpty(Run(mid, [es[i]]).final, after);
  }

  /** An event that delivers a foreign Heartbeat to the receive loop. */
  predicate DrainsLeader(me: Id, e: Event) {
    e.Poll? && e.incoming.Some? && ForeignHeartbeat(me, e.incoming.value)
  }

  /** One event that is not a foreign Heartbeat discards no leader signal. */
  lemma ApplyKeepsLeaderOrder(s: State, e: Event)
    requires !DrainsLeader(s.me, e)
    ensures Apply(s, e).leaderDelivered + Apply(s, e).final.leader
         == s.leader + (if e.PushSignal? then [e.signal] else [])
  {
  }

  /**
   Leader FIFO: when no foreign Heartbeat arrives (Heartbeats from this node
   included), nothing is ever discarded, and the signals handed out by
   `get_leader_message` followed by those still queued are the initial
   contents followed by the pushed signals, in order.
   */
  lemma {:induction false} LeaderFifo(s: State, es: seq<Event>)
    requires forall e | e in es :: !DrainsLeader(s.me, e)
    ensures Run(s, es).leaderDelivered + Run(s, es).final.leader == s.leader + Pushed(es)
    decreases |es|
  {
    if |es| > 0 {
      var first := Apply(s, es[0]);
      assert forall e | e in es[1..] :: e in es;
      LeaderFifo(first.final, es[1..]);
      var rest := Run(first.final, es[1..]);
      var head := if es[0].PushSignal? then [es[0].signal] else [];
      assert Pushed(es) == head + Pushed(es[1..]);
      ApplyKeepsLeaderOrder(s, es[0]);
      ChainAccounts(s.leader, first.leaderDelivered, first.final.leader, head,
                    rest.leaderDelivered, rest.final.leader, Pushed(es[1..]));
    }
  }

  /**
   Stale leader signals are never handed out: after the last foreign
   Heartbeat of a run, `get_leader_message` hands out, and the queue ends
   holding, only signals pushed after that Heartbeat, in the order pushed.
   Whatever was queued before it is discarded for good.
   */
  lemma StaleSignalsDiscarded(s: State, es: seq<Event>, i: nat)
    requires i < |es| && DrainsLeader(s.me, es[i])
    requires forall j | i < j < |es| :: !DrainsLeader(s.me, es[j])
    ensures Run(s, es).leaderDelivered
         == Run(s, es[..i + 1]).leaderDelivered + Run(Run(s, es[..i + 1]).final, es[i + 1..]).leaderDelivered
    ensures Run(Run(s, es[..i + 1]).final, es[i + 1..]).leaderDelivered + Run(s, es).final.leader
         == Pushed(es[i + 1..])
  {
    var upto := es[..i + 1];
    var after := es[i + 1..];
    assert es == upto + after;
    RunAppend(s, upto, after);
    assert upto == es[..i] + [es[i]];
    RunAppend(s, es[..i], [es[i]]);
    var before := Run(s, es[..i]).final;
    assert Run(before, [es[i]]).final == Apply(before, es[i]).final;
    var mid := Run(s, upto).final;
    assert |mid.leader| == 0;
    forall e | e in after
      ensures !DrainsLeader(mid.me, e)
    {
      var k :| 0 <= k < |after| && after[k] == e;
      assert es[i + 1 + k] == e;
    }
    LeaderFifo(mid, after);
  }

  /**
   The two rules are independent: a foreign Heartbeat addressed to a third
   party drains the leader queue but is not admitted.
   */
  lemma ThirdPartyHeartbeat(s: State, from: Id, to: Id, payload: string)
    requires from != s.me && to != s.me
    ensures Receive(s, Msg(Heartbeat, from, Some(to), payload)).inbound == s.inbound
    ensures Receive(s, Msg(Heartbeat, from, Some(to), payload)).leader == []
  {
  }

  /**
   Admission is decided by the receiver alone: of two messages with the same
   receiver, either both are appended to the inbound queue or neither changes
   it, whatever their type, sender and payload.
   */
  lemma AdmissionIgnoresTypeAndSender(s: State, m1: Msg, m2: Msg)
    requires m1.receiver == m2.receiver
    ensures |Receive(s, m1).inbound| == |Receive(s, m2).inbound|
    ensures Receive(s, m1).inbound == s.inbound <==> Receive(s, m2).inbound == s.inbound
  {
  }
}
