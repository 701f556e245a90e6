# Peer-to-peer message transport: Talker and Listener

A Dafny model of the two transport workers of a heartbeat-based leadership
protocol (`Interface.py`). Each node runs:

- a **Talker**, which owns an outbound FIFO queue filled by `send_message`
  and a publish loop that, once per iteration, publishes the oldest queued
  message if there is one;
- a **Listener**, which receives messages from every peer and applies two
  independent rules to each one. *Leader arbitration*: a Heartbeat whose
  sender is not this node empties the leader queue. *Addressing*: the message
  enters the inbound queue exactly when its receiver is this node or absent
  (broadcast). The owning node polls both queues without blocking
  (`get_message`, `get_leader_message`). It is also the only writer of the
  leader queue, which the model shows as the environment event `PushSignal`.

The model is purely functional. Queues are `seq<Msg>` and every loop
iteration is a pure step function. Whole runs are sequences of events folded
by `Run`, and the FIFO and arbitration guarantees are lemmas over arbitrary
runs.

Files:

- `messages.dfy`: `Option`, `Id` (an address, which is also the port), the
  message type (`Heartbeat` or an abstract other variant) and `Msg`.
- `queues.dfy`: the FIFO queue operations `put`, `get_nowait` and the drain
  loop.
- `listener.dfy`: the Listener's receive step, its polls, `next_port`, and
  run-level lemmas.
- `talker.dfy`: `send_message`, the publish-loop step, and run-level lemmas.

## Model

| member | source | states |
|---|---|---|
| Queues.Put | Interface.py:57 | a put keeps the old contents in order and adds the message at the back |
| Queues.GetNowait | Interface.py:120-124 | a non-blocking get returns nothing and changes nothing exactly when the queue is empty; otherwise it returns the front element and leaves the rest |
| Queues.DrainAll | Interface.py:105-109 | the `get_nowait` loop that stops at `Queue.Empty` discards every pending element, front first, and leaves the queue empty |
| Queues.PutThenGet | Interface.py:119-125 | FIFO: after a put, a get returns the previous front element, or the new message if the queue was empty |
| Listener.Init | Interface.py:65-81 | a new Listener keeps its identity and starts with both queues empty |
| Listener.Receive | Interface.py:102-111 | a foreign Heartbeat empties the leader queue and any other message leaves it unchanged; independently, the message is appended to the inbound queue iff its receiver is this node or absent, otherwise the inbound queue is unchanged; the identity is unchanged |
| Listener.ListenStep | Interface.py:100-115 | a receive that would block changes nothing; a received message is handled by `Receive` |
| Listener.GetMessage | Interface.py:119-125 | returns `None` iff the inbound queue is empty, and then changes nothing; otherwise returns its head and leaves the tail; the leader queue is untouched |
| Listener.GetLeaderMessage | Interface.py:127-133 | the same contract on the leader queue; the inbound queue is untouched |
| Listener.PushLeader | Interface.py:78 | the owning node only appends to the leader queue; nothing else changes |
| Listener.MaxPort | Interface.py:98 | `max` over a non-empty port list returns one of the configured ports, and no configured port exceeds it |
| Listener.NextPort | Interface.py:98 | no result iff the port list is empty (where `max` raises); otherwise the result is above every configured port and is one more than one of them |
| Listener.Apply | Interface.py:100-133 | no event, whether a receive-loop iteration or an action of the owning node, changes the Listener's identity |
| Listener.Run | Interface.py:100-133 | the identity is unchanged over any run of events |
| Listener.AdmittedIsSound | Interface.py:110-111 | the admission filter keeps only messages that are broadcast or addressed to this node |
| Listener.AdmittedIsComplete | Interface.py:110-111 | the admission filter drops no broadcast message and no message addressed to this node |
| Listener.InboundFifo | Interface.py:100-125 | over any run, the messages handed out by `get_message` followed by those still queued equal the initial inbound queue followed by the admitted received messages, in order of receipt |
| Listener.AddressingOverRun | Interface.py:110-111 | over any run, no message addressed to another identity is ever handed out or left queued, and every admitted received message is handed out or still queued |
| Listener.ForeignHeartbeatDrains | Interface.py:104-109 | once a foreign Heartbeat has been received, the leader queue stays empty until the node queues a new signal, whatever it held before |
| Listener.ApplyKeepsLeaderOrder | Interface.py:104 | an event that is not a foreign Heartbeat discards no leader signal: signals handed out plus those left are the old queue plus any pushed signal |
| Listener.LeaderFifo | Interface.py:100-133 | over any run without a foreign Heartbeat (Heartbeats from this node included), the signals handed out by `get_leader_message` followed by those still queued are the initial queue followed by the pushed signals, in order |
| Listener.StaleSignalsDiscarded | Interface.py:104-109 | after the last foreign Heartbeat of any run, the leader signals handed out and those left queued are exactly the signals pushed after it, in order; no signal queued before it is ever handed out |
| Listener.ThirdPartyHeartbeat | Interface.py:104-111 | a foreign Heartbeat addressed to a third party drains the leader queue but is not admitted |
| Listener.AdmissionIgnoresTypeAndSender | Interface.py:110-111 | admission depends on the receiver only: of two messages with the same receiver, either both are admitted or both leave the inbound queue unchanged, whatever their type, sender and payload |
| Talker.Init | Interface.py:9-20 | a new Talker keeps its port and starts with an empty outbound queue |
| Talker.SendMessage | Interface.py:56-57 | `send_message` appends the message to the outbound queue and changes nothing else |
| Talker.PublishStep | Interface.py:46-51 | an iteration on an empty queue publishes nothing and changes nothing; otherwise it publishes the head and leaves the tail |
| Talker.Apply | Interface.py:46-57 | neither a send nor a publish-loop iteration changes the Talker's port |
| Talker.Run | Interface.py:46-57 | the port is unchanged over any run |
| Talker.OutboundFifo | Interface.py:46-57 | over any run, the published messages followed by the remaining queue equal the initial queue followed by every sent message, in the order sent |
| Talker.PublishedIsPrefix | Interface.py:46-57 | starting from an empty queue, what has been published is always a prefix of what has been sent |
| Talker.PublishesDrain | Interface.py:46-51 | with no further sends, `n` iterations publish exactly the first `n` queued messages in order and leave the rest queued, or publish all of them and leave the queue empty |
| Talker.EventuallyPublished | Interface.py:46-57 | after any run, enough further iterations publish everything ever queued or sent, in enqueue order, and leave the queue empty |

## Left out

- Socket set-up and tear-down: ZeroMQ context, bind, the endless bind-retry loop, connect, subscribe, unbind and close (`Interface.py:31-38, 53-54, 88-92, 117`). These are foreign I/O calls. The retry loop states nothing beyond "retry until the bind succeeds".
- The `time.sleep` warm-ups and poll intervals, `wait_until_ready`, and the stop and ready events. These are timing and cross-process signalling. A stopped worker simply takes no further steps, which any finite run already covers.
- Process and queue concurrency (`multiprocessing.Process`, `multiprocessing.Queue`). Each queue is a plain sequence. The owning node's `get_message`, `get_leader_message` and leader-signal push are each one atomic step. Each receive-loop iteration is also one atomic step: the receive, the whole drain loop at `Interface.py:106-107` and the `put` at `Interface.py:111` happen with nothing from the owning node in between.
- Listener.StaleSignalsDiscarded: holds only at the granularity of one receive-loop iteration per step. In the source, each `get_nowait` of the drain releases the queue's read lock, so the owning node's `get_leader_message` (`Interface.py:130`, another process) can run between two gets of the drain. From a leader queue `[x1, x2]`, the drain can take `x1`, the node's poll can take `x2`, and the drain then stops at `Queue.Empty`. The node is then handed `x2`, a signal queued before the foreign Heartbeat, while the older `x1` is discarded. `Listener.LeaderFifo` and `Listener.ForeignHeartbeatDrains` rest on the same coarse step, so the model never produces this interleaving.
- Queues.GetNowait: models an idealised queue, where `Queue.Empty` means the queue is empty. The `multiprocessing.Queue` at `Interface.py:20, 77-78` can also raise it while elements are pending: another process may hold the read lock, and the leader queue has readers in two processes (`Interface.py:107` and `:130`). A `put` is also not visible until the feeder thread flushes it. So in the source, the drain at `Interface.py:105-109` can stop with signals still queued, and `get_message` or `get_leader_message` can return `None` while messages are pending. The "queue ends empty" promises of `Queues.DrainAll` and `Listener.Receive`, and the "`None` iff empty" promises of `Listener.GetMessage`, `Listener.GetLeaderMessage` and `Talker.PublishStep`, hold only for that idealised queue.
- JSON encoding and decoding (`send_json`, `recv_json`), and malformed messages (a missing key raises `KeyError`). Every received message is taken to be a well-formed `Msg`.
- The contents of the message type enumeration. It is defined in `MessageProtocol`, which is not part of this model. Only Heartbeat versus any other variant matters here.
- The transport between a Talker and its peers' Listeners. A published message is not connected to a received one. The Listener's receive loop takes its input from its events, so ordering across senders is unconstrained, as it is in the source.
- Listener.NextPort: the `int(...)` conversion of configured port values is not modelled. Ports are taken to be integers already. The source computes the value and never uses it, so the model states only what it is.

## Notes on the source

- `next_port` at `Interface.py:98` raises `ValueError` when the port list is empty. The raise happens inside the Listener's `run`, before the receive loop starts. The model returns `None` in that case instead of assuming a non-empty list.
