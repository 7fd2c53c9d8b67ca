# A model of the media server, and what is proved of it

The server relays WebRTC media: WHIP clients publish, WHEP clients watch, and several worker
threads share a broadcast bus. This project models the parts with state, in Dafny 4.11, and proves
properties of them. `dafny verify dfyconfig.toml` checks everything.

| file | what it models |
|---|---|
| `Codec.dfy` | receive-buffer numbering and the 64-bit completion tags |
| `IoUring.dfy`, `IoUringSafety.dfy`, `IoUringRuns.dfy`, `IoUringFate.dfy` | the io_uring socket and the kernel as one step relation, the invariant of every interleaving, and the theorems about runs: mailbox, buffers, what becomes of a packet |
| `IoUringSocket.dfy`, `SocketCalls.dfy` | the socket as a class whose methods are proved to be those steps, and what becomes of the calls of a worker's cycle on it |
| `Mmsg.dfy` | the `sendmmsg` socket: an array-backed batch |
| `Tasks.dfy`, `TaskFacts.dfy`, `WhipTask.dfy`, `WhepTask.dfy` | the two task drivers over an engine oracle, what they take out of it and what they hand to it, and the classes |
| `Routing.dfy`, `RoutingSafety.dfy`, `RoutingExamples.dfy` | a worker's tables, the agreement between them, and concrete cycles that fail or leave something behind |
| `Cycle.dfy`, `WorkerLoop.dfy` | the phases of `process_cycle`, and the worker as a class |
| `Deliveries.dfy`, `Drains.dfy` | what a cycle brings about in each task and its engine, what it sends, whom it removes |
| `Sizes.dfy` | why no send is too long when the engines put out at most what a slot holds |
| `Cluster.dfy`, `ClusterSafety.dfy`, `EndToEnd.dfy`, `CycleRuns.dfy` | N workers over the broadcast log, every interleaving of their steps, what gets from a publisher's engine to a viewer, and that a cycle is a run of steps |
| `Replies.dfy`, `Requests.dfy`, `RequestOrder.dfy` | what a worker answers, HTTP request accounting across the main thread, the controller and the workers, and the order in which requests are handled |
| `Trickle.dfy`, `TrickleStory.dfy` | the trickle-ICE buffer of the WHIP client, and the same told from its events alone |
| `Seqs.dfy`, `Net.dfy` | shared facts about sequences; packets and the abstract send side |

How the layers fit. The class methods are proved equal to functions on values (`View()` before and
after). The step relations take single turns of those functions and interleave them with the kernel,
with other workers or with timers. Theorems are about every run. `CycleRuns.CycleIsRun` closes the
circle for the worker: what `Worker.ProcessCycle` does is a run of the cluster. Each task keeps the
history of what it handed to its engine, so that what a datagram, a packet, a deadline or a keyframe
request comes to can be told from the outside (`Drains.CycleFed`), and so can what is sent for it
(`Drains.CycleSends`, `SocketCalls.CycleFlushes`).

## Where the code differs from what one might expect

- `src/worker.rs:409` filters `consumers` in the loop over published tracks. The model does what the
  code does. Stale ids stay in source lists exactly for tasks that published something
  (`RoutingSafety.StaleSources`, `RoutingExamples.StaleSourceExample`); deliveries are right all the
  same, because ids are not reused and only live tasks are given anything
  (`RoutingSafety.KeyframeFanOut`).
- The `panic!` and `todo!` arms of the tasks are never reached. A worker does end on a bad offer
  (`src/tasks/whip.rs:62-67`), on a keyframe request for a publisher whose engine has no receive
  stream for the video it announced (`src/tasks/whip.rs:133`), on a datagram from an unknown address
  that is not STUN (`src/worker.rs:308`), on one for a task that does not parse, when a task that has
  ended twice is removed (`src/worker.rs:394`), on a send of more than 1500 bytes for which a slot is
  free (`src/net/socket2_io_uring.rs:271`), and when `finish_read_from` fails. `Cycle.CycleKeeps` says
  that a cycle crashes exactly then; `RoutingExamples.EndedTwiceFails`, `MissedStreamFails` and
  `OverlongSendFails` are cycles that do. If the engines put out at most 1500 bytes at a time no send
  is too long (`Sizes.CycleSmall`).
- With RECV_QUEUE of 16, as in the socket's own first test, and a ring of just the size asked for,
  `finish_read_from` can find the ring full. `IoUringRuns.RingNeverOverflows` says exactly for which
  sizes that can happen; the server's 2048 and 2048 are not among them.
- The ufrag table stays right exactly when a new task's ufrag is new (`RoutingSafety.UfragCollision`).
- The main thread puts a request into `reqs` after it was dispatched. A worker may answer in between;
  the main thread reads responses only later, so its `expect` holds. What does bring it down is a
  request when there are no workers, a body that cannot be read, and a client that is gone when its
  response is written (`Requests.CrashesExactly`).
- A trickle that fires before the resource is known, and a stop, take the timer away from pending
  data, and nothing else does (`Trickle.ArmedStep`, `Trickle.UnarmedExactly`).
- `trickle` clears what it takes before it builds the fragment. If an unknown media id, a missing
  connection or a rejected restart offer then makes it throw, that batch is lost (`Trickle.RendersExactly`,
  `Trickle.DeliveredExactly`).

## Assumed of the environment

- Kernel: a successful submit hands over every pending entry in order; each send has exactly one
  completion without MORE; a group's completion without MORE comes after the data completions of all
  its buffers; the completion queue does not overflow. A send may fail, stay untransmitted, or be
  refused at submit.
- Engine (str0m): a finite list of outputs, then a timeout; inputs change it arbitrarily.
- Two hypotheses of the run theorems about workers, in `Cluster.Enabled`: new ufrags are new, and a
  task reports its end once. `RoutingSafety.UfragCollision` and `RoutingSafety.PopEndedSucceeds` say
  exactly what fails without them.

## Model

| member | source | states |
|---|---|---|
| Codec.GroupIndexBijection | src/net/socket2_io_uring.rs:17-33 | `to_u32` numbers the pairs of a group and an index below 16 without gaps or collisions onto 0..RECV_QUEUE, and `index` is its second projection |
| Codec.TagRoundTrip | src/net/socket2_io_uring.rs:64-82 | decoding an encoded tag gives it back and it fits 64 bits; re-encoding a decoded word gives the word exactly when some tag encodes to it |
| Codec.OrIsAddition | src/net/socket2_io_uring.rs:64-72 | the or of the tag's bit ranges is a sum, on 64-bit words |
| Codec.ShiftAndMask | src/net/socket2_io_uring.rs:74-82 | shift and masks are quotient and remainders, on 64-bit words |
| Codec.RecvWord | src/net/socket2_io_uring.rs:64-72 | the tag of a receive is its group or-ed under a one in the upper half of the 64-bit word |
| Codec.BuffersWord | src/net/socket2_io_uring.rs:64-72 | the tag of a provided buffer is its number or-ed under a two in the upper half |
| Codec.ForeignTags | src/net/socket2_io_uring.rs:74-82 | any word whose upper half is neither one nor two is read as a send; a receive keeps sixteen bits, the others thirty-two |
| Net.NetPacket.Fill | src/net/socket2_io_uring.rs:269-273 | a slot that was overwritten shows a reader exactly the new bytes and destination, whatever the old tail was |
| IoUringSafety.InitialInv | src/net/socket2_io_uring.rs:142-158 | a new socket satisfies the ownership invariant |
| IoUringSafety.PollKeeps | src/net/socket2_io_uring.rs:222-246 | polling a completion never crashes and moves a slot, buffer or group to exactly one new place |
| IoUringSafety.AddKeeps | src/net/socket2_io_uring.rs:264-290 | adding a packet touches no slot somebody still reads; it crashes exactly when a slot is free and the data is longer than 1500 bytes |
| IoUringSafety.CommitKeeps | src/net/socket2_io_uring.rs:292-298 | a submit, taken or refused, keeps the invariant |
| IoUringSafety.ReceiveKeeps | src/net/socket2_io_uring.rs:300-326 | taking a packet is in bounds and keeps the mailbox in completion order |
| IoUringSafety.PrepareKeeps | src/net/socket2_io_uring.rs:252-258 | arming the next new group, with sends already pending, keeps the invariant |
| IoUringSafety.FinishKeeps | src/net/socket2_io_uring.rs:328-335 | re-arming a completed group when the wait queue is empty keeps the invariant: none of its sixteen buffers is held by anybody |
| IoUringSafety.PrepareReadSplit | src/net/socket2_io_uring.rs:175-220 | a `prepare_read` whose pushes and submit succeed submits what was pending and then arms one group, nothing else |
| IoUringSafety.EntriesAre | src/net/socket2_io_uring.rs:175-218 | arming group g pushes its sixteen buffers 16g..16g+15 with ids 0..15 and their tags, in order, and only then the receive that uses them |
| IoUringSafety.PendingBound | src/net/socket2_io_uring.rs:264-290 | pending entries never exceed SEND_QUEUE, and stay below it while a slot is free |
| IoUringSafety.WriteKeeps | src/net/socket2_io_uring.rs:227-232 | the kernel fills a provided buffer: no unread packet is overwritten |
| IoUringSafety.EndKeeps | src/net/socket2_io_uring.rs:233-235 | the end of a multishot receive passes the right to arm its group on, once |
| IoUringSafety.TransmitKeeps | src/net/socket2_io_uring.rs:275-285 | what the kernel puts on the wire is the packet of the call that took the slot, and was not sent before |
| IoUringSafety.FinishSendKeeps | src/net/socket2_io_uring.rs:237-242 | the final completion of a send is the only thing that frees its slot |
| IoUringSafety.StepKeeps | src/net/socket2_io_uring.rs:222-335 | every step of either side keeps the whole invariant; it crashes exactly when it arms a group and the ring is full or the kernel refuses the submit, or when data is too long for the free slot it goes to |
| IoUringSafety.ReachableInv | src/net/socket2_io_uring.rs:98-336 | the invariant holds in every state of every interleaving |
| IoUringRuns.ReceiveRefinement | src/net/socket2_io_uring.rs:300-326 | receiving is a FIFO mailbox: returned packets are a prefix of what the kernel wrote, the rest is intact in order, and the next one returned is the first not returned |
| IoUringRuns.UnreadNeverProvided | src/net/socket2_io_uring.rs:328-335 | a buffer in the completion queue or the wait queue is never in the kernel's hands |
| IoUringRuns.ReturnedStays | src/net/socket2_io_uring.rs:300-335 | the buffer of a packet just returned is not the kernel's and keeps its content, whatever both sides do, until a `finish_read_from` gives its group back |
| IoUringRuns.SendIntegrity | src/net/socket2_io_uring.rs:264-290 | while the kernel may read a slot it holds the bytes and destination of the call that took it, no other pending send uses it, and it is not free |
| IoUringRuns.SendRefinement | src/net/socket2_io_uring.rs:264-298 | what is on the wire was accepted, unchanged, and goes out at most once |
| IoUringFate.PacketFate | src/net/socket2_io_uring.rs:237-298 | in every reachable state each accepted packet is in exactly one place: on the wire, in a slot that waits to be transmitted, or finished by the kernel without |
| IoUringFate.SubmittedInOrder | src/net/socket2_io_uring.rs:264-298 | what the kernel has and what waits to be submitted is in the order of acceptance |
| IoUringRuns.SlotPartition | src/net/socket2_io_uring.rs:237-298 | free, queued, in the kernel, completed: every slot is in exactly one of them, once, in every reachable state, and no other slot number is anywhere |
| IoUringRuns.FlagDown | src/net/socket2_io_uring.rs:287-298 | `ring_queue_changed` false means that no send waits for a submit |
| IoUringRuns.CrashExactly | src/net/socket2_io_uring.rs:191-271 | in a reachable state a call crashes if and only if it arms a group and a push finds the ring full or the submit is refused, or adds more than 1500 bytes while a slot is free |
| IoUringRuns.RingNeverOverflows | src/net/socket2_io_uring.rs:98-125 | some reachable call finds the ring full if and only if the ring has no room for SEND_QUEUE + 17 entries; RECV_QUEUE of at least 32 gives the room |
| IoUringSocket.UdpSocket.constructor | src/net/socket2_io_uring.rs:99-159 | the new socket is the initial state, and is valid |
| IoUringSocket.UdpSocket.PrepareRead | src/net/socket2_io_uring.rs:175-220 | the loop pushes sixteen buffers and the receive and hands everything pending over; false exactly when a push or the submit fails |
| IoUringSocket.UdpSocket.Prepare | src/net/socket2_io_uring.rs:252-258 | every group of a new socket is armed, in order; false exactly when the ring is too small for one or a submit is refused |
| IoUringSocket.PrepareAllKeeps | src/net/socket2_io_uring.rs:252-258 | arming all groups keeps the invariant, and fails exactly when the first finds the ring too small or a submit is refused |
| IoUringSocket.UdpSocket.PollCompletions | src/net/socket2_io_uring.rs:222-246 | the loop sorts all completions as the single steps do |
| IoUringSocket.PollAllRuns | src/net/socket2_io_uring.rs:222-246 | the whole poll is a run of single polls |
| IoUringSocket.PollCall | src/net/socket2_io_uring.rs:222-246 | after a poll the completion queue is empty, and filled buffers, freed slots and completed groups are queued in completion order behind those that waited |
| IoUringSocket.UdpSocket.AddSendTo | src/net/socket2_io_uring.rs:264-290 | blocked exactly when queued and in-kernel sends fill SEND_QUEUE; otherwise a panic exactly on more than 1500 bytes; otherwise accepted once |
| IoUringSocket.UdpSocket.CommitSendTo | src/net/socket2_io_uring.rs:292-298 | success means that nothing is pending, the flag is down and the kernel has every pending send in order; a refusal changes nothing |
| IoUringSocket.UdpSocket.RecvFrom | src/net/socket2_io_uring.rs:300-326 | returns the first packet written and not yet returned, or nothing exactly when there is none |
| IoUringSocket.UdpSocket.FinishReadFrom | src/net/socket2_io_uring.rs:328-335 | re-arms at most the oldest completed group, only with an empty wait queue; false exactly when it has a group to re-arm and the ring is full or the submit refused |
| SocketCalls.CycleFlushes | src/worker.rs:119-126 | the calls of a cycle on this socket, its sends, then the commit, then the giving back of buffers, with the kernel acting in between at any time: if the kernel takes the commit, the packets accepted are the sends that found a slot, in order, and none of them waits in the ring any more |
| SocketCalls.NothingDropped | src/net/socket2_io_uring.rs:264-268 | with a slot for every call no send is dropped: the packets accepted are exactly those of the sends, in order |
| Mmsg.BatchRefinement | src/net/socket2_mmsg.rs:63-98 | whatever the sends come to, and with any number of slots, the wire is an in-order, duplicate-free subsequence of what was accepted; wire and pending are all of it exactly when nothing was lost |
| Mmsg.NothingLost | src/net/socket2_mmsg.rs:63-98 | nothing is lost if and only if every send, asked for or forced by a full batch, goes out in full |
| Mmsg.UdpSocket.AddSendTo | src/net/socket2_mmsg.rs:63-77 | accepts exactly the packet given, at the end of the batch, or of an empty one after a commit; a failed commit refuses it; a panic exactly without slots or on more than 1500 bytes |
| Mmsg.UdpSocket.CommitSendTo | src/net/socket2_mmsg.rs:79-98 | the slots below the cursor go out in order, as many as the send says, and the batch is empty afterwards even if the send fails |
| Tasks.DriverRefinement | src/tasks/whip.rs:146-208 | for all sequences of pops, ticks and inputs: actions popped and then the queue are the initial queue and then the translation of the engine outputs consumed |
| Tasks.NewTaskRefinement | src/tasks/whip.rs:69-88 | a new task answers its request first and never again; everything after is translation |
| Tasks.PopsBringEverything | src/tasks/whep.rs:165-224 | the pops that return nothing in mid-stream lose nothing: with no deadline in the way enough pops bring out the queue and the translation of everything ready |
| Tasks.NothingBeforeDeadline | src/tasks/whip.rs:96-161 | over whole call sequences: after a timeout was consumed nothing is consumed until a call at or after it, a datagram or media |
| Tasks.PopProgress | src/worker.rs:339-390 | a pop that gives an action uses up engine outputs or queue, so the loop of `pop_task` ends |
| Tasks.PopRoleOk | src/tasks/whep.rs:165-224 | a WHIP task only publishes and sends media, a WHEP task only subscribes and requests keyframes |
| TaskFacts.KnownMids | src/tasks/whep.rs:201-208 | after any calls a task knows for each kind the media id that its engine announced last |
| TaskFacts.FedRefinement | src/tasks/whep.rs:93-163 | over any sequence of calls the engine is handed exactly the datagrams that parse, the deadlines that come, the media of an announced kind under the media id announced last, and the keyframe requests for the own announced video, in order |
| TaskFacts.HandingOver | src/tasks/whip.rs:96-144 | a tick or an input that hands something over leaves the engine's answer and no deadline (a keyframe request leaves the deadline); one that hands over nothing changes nothing |
| TaskFacts.PopAsks | src/tasks/whip.rs:151-155 | with nothing queued, a pop at or after the deadline takes what the engine has |
| TaskFacts.HandedIsTaken | src/tasks/whep.rs:126-171 | what a datagram, media or a deadline brought about in the engine is taken by the next pop, whenever it comes |
| TaskFacts.NewTaskAsks | src/tasks/whip.rs:69-88 | the first pop of a new task brings its response and the second asks its engine, at any time |
| WhipTask.WhipServerTask.constructor | src/tasks/whip.rs:69-88 | starts with the 200 response queued and no deadline |
| WhipTask.WhipServerTask.Tick | src/tasks/whip.rs:96-108 | when the deadline has come the engine is handed it and it is cleared; otherwise nothing changes |
| WhipTask.WhipServerTask.Input | src/tasks/whip.rs:110-144 | a datagram is handed to the engine and clears the deadline; a keyframe request is handed to it, under the media id, exactly for the own video track with a known media id, and leaves the deadline; false exactly on the inputs of the other role, a garbled datagram, or such a request without a stream |
| WhipTask.WhipServerTask.PopAction | src/tasks/whip.rs:146-208 | is the driver function, and leaves the engine alone while waiting |
| WhepTask.WhepServerTask.constructor | src/tasks/whep.rs:67-84 | starts with the 200 response queued and no deadline |
| WhepTask.WhepServerTask.Tick | src/tasks/whep.rs:93-105 | when the deadline has come the engine is handed it and it is cleared; otherwise nothing changes |
| WhepTask.WhepServerTask.Input | src/tasks/whep.rs:107-163 | media is written to the engine under the audio media id for payload type 111 and the video media id otherwise, if that id is known and a stream exists, and then clears the deadline; otherwise nothing changes; a datagram is handed over and clears it too; false exactly on the inputs of the other role or a garbled datagram |
| WhepTask.WhepServerTask.PopAction | src/tasks/whep.rs:165-224 | is the driver function, and leaves the engine alone while waiting |
| RoutingSafety.CreateKeeps | src/worker.rs:144-196 | a new task with a new ufrag keeps all tables in agreement, stale source ids notwithstanding |
| RoutingSafety.UfragCollision | src/worker.rs:156-156 | the ufrag table survives a new task if and only if the ufrag is new |
| RoutingSafety.TakeKeeps | src/worker.rs:339-390 | any action of a task keeps all tables in agreement |
| RoutingSafety.BusReadKeeps | src/worker.rs:213-243 | reading an event makes a task panic if and only if it is a keyframe request and a live publisher of the track misses the stream it announced; otherwise the tables stay in agreement |
| RoutingSafety.DeliverCounts | src/worker.rs:218-240 | an event reaches each live listed task once per listing and nobody else |
| RoutingSafety.MediaFanOut | src/worker.rs:217-228 | media reaches each live subscriber of its track once per subscription, nobody else |
| RoutingSafety.KeyframeFanOut | src/worker.rs:229-240 | a keyframe request that finds its streams reaches each live publisher of its track once per publication, nobody else, in spite of line 409; it panics exactly when a stream is missing |
| RoutingSafety.UdpKeeps | src/worker.rs:245-312 | reading a datagram panics if and only if it is from an unknown address and not STUN, or is for a task and does not parse; otherwise the tables stay in agreement |
| RoutingSafety.AddressRouting | src/worker.rs:250-278 | of a readable datagram: a known address reaches the live task it is bound to; an unknown one reaches, and is bound to, exactly the live task whose ufrag it names; no other binding changes |
| Deliveries.DeliverEffect | src/worker.rs:219-226 | after a delivery every live task is its old self after one input for each time it is listed, in listing order, each with its own reaction; nothing else changes |
| Deliveries.MediaArrives | src/tasks/whep.rs:126-158 | reading media on the bus: a viewer that listens once writes it to its engine under the media id of its kind and is left with the engine's answer and no deadline, exactly if it knows the id and has a stream, and is unchanged otherwise |
| Deliveries.KeyframeArrives | src/worker.rs:229-240 | reading a keyframe request: a publisher listed once asks its engine for it, under its video media id, exactly if it is for its video and the id is known; its deadline stays |
| Deliveries.DatagramArrives | src/worker.rs:280-288 | a readable datagram is handed to the engine of the task it reaches, with its source, the local address and its bytes, and leaves the engine's answer and no deadline; every other task is unchanged |
| RoutingSafety.RemoveConsumers | src/worker.rs:399-414 | removal takes the task out of every consumer list on every track, keeps the order of the others, and leaves source lists alone |
| RoutingSafety.RemoveKeeps | src/worker.rs:394-414 | removing a live task keeps all tables in agreement, and no entry is left empty |
| RoutingSafety.RemoveAllSucceeds | src/worker.rs:393-415 | draining a list succeeds if and only if its ids are live and distinct, in any order |
| RoutingSafety.PopEndedSucceeds | src/worker.rs:393-394 | the `expect` holds if and only if no task ended twice |
| RoutingSafety.CompleteRemoval | src/worker.rs:392-416 | an ended id is gone from tasks, addresses, ufrags and consumer lists; every other entry is unchanged |
| RoutingExamples.EndedTwiceFails | src/worker.rs:360-363 | a cycle in which the engine of a new task disconnects twice crashes |
| RoutingExamples.MissedStreamFails | src/tasks/whip.rs:126-134 | after a cycle in which a publisher connects and announces its video, a keyframe request crashes the next cycle if its engine has no stream |
| RoutingExamples.OverlongSendFails | src/worker.rs:341-345 | a cycle in which the engine of a new task transmits 1501 bytes crashes when a slot is free |
| RoutingSafety.StaleSources | src/worker.rs:407-414 | source lists are free of the removed tasks if and only if none of them had published |
| RoutingExamples.StaleSourceExample | src/worker.rs:409-409 | a publisher that connects and leaves within the cycle of its request is still a source of both its tracks after that cycle |
| Cycle.DrainKeeps | src/worker.rs:329-390 | draining a task keeps all tables in agreement and removes nobody |
| Cycle.AdmitIsCreate | src/worker.rs:145-196 | draining a new task before it is in the table equals inserting it first and draining it there |
| Cycle.HttpOneKeeps | src/worker.rs:141-211 | a request whose task can be built keeps all tables in agreement, even if the task ends at once |
| Cycle.BusAllKeeps | src/worker.rs:213-243 | the bus phase panics if and only if a stream is missing, which the tables at its start decide; otherwise the tables stay in agreement |
| Deliveries.BusAllEffect | src/worker.rs:213-243 | after the bus phase every task is its old self after the events for its tracks, in log order, once per listing |
| Deliveries.TickAllEffect | src/worker.rs:134-139 | after the ticks exactly the tasks whose deadline has come handed it to their engine and have none any more |
| Drains.DrainIs | src/worker.rs:329-390 | a drain performs the queue and then, unless a deadline is still to come, the translation of what the engine has ready up to the first output that brings no action, which it takes too; and what that leaves in the task |
| Drains.DrainRegisters | src/worker.rs:364-388 | a drain appends the task to the lists of a track once for each announcement and each subscription among its actions |
| Drains.RequestMakesTask | src/worker.rs:144-207 | a request for `/whip/endpoint` or `/whep/endpoint` makes one task of that role with its ufrag and tracks, drained once; any other path is answered with 404 and changes nothing |
| Drains.PopAllLeaves | src/worker.rs:314-327 | every task of the table is left as one drain leaves it |
| Drains.UdpOneLeaves | src/worker.rs:280-301 | a datagram leaves the task it reaches as the drain right after it does, and every other as it was |
| Cycle.UdpAllKeeps | src/worker.rs:245-304 | apart from its sends, the datagram phase panics if and only if a datagram is not readable when its turn comes; otherwise the tables stay in agreement |
| Cycle.CycleKeeps | src/worker.rs:113-132 | a cycle crashes if and only if a stream is missing, an offer is bad, some task ended twice by the time ended tasks are removed, a datagram is not readable, a send is too long for the slot that is free for it, or `finish_read_from` fails; otherwise all tables agree after it |
| Sizes.CycleSmall | src/worker.rs:341-345 | if engines put out at most 1500 bytes at a time, every send of a cycle fits whatever slots are free, and that stays so |
| Drains.CallsAreSends | src/worker.rs:341-345 | for any engine outputs, the socket calls their actions stand for are the datagrams among them, in order, each with its contents and its destination |
| Drains.CycleSends | src/worker.rs:113-126 | the socket sends of a whole cycle are exactly the datagrams the engines have ready, up to where each drain stops: of new tasks, then of tasks that wait for no deadline, then of the task of each datagram right after it |
| Drains.CycleFed | src/worker.rs:113-118 | over a whole cycle the engine of a task that lives through it is handed the bus events for it, then its deadline if it has come, then the datagrams that reach it, and nothing else |
| Drains.CycleRemoves | src/worker.rs:360-416 | a cycle removes exactly the tasks that had ended before and those whose engine is disconnected when they are drained for their deadlines |
| WorkerLoop.Socket.AddSend | src/net/socket2_io_uring.rs:264-290 | false, the panic, exactly when a slot is free and the packet is too long for it |
| WorkerLoop.Worker.HandleAction | src/worker.rs:340-388 | what each action does to the tables and what leaves the worker: a send is one call with its contents and its destination; false exactly when it sends too much into a free slot |
| WorkerLoop.Worker.PopTask | src/worker.rs:329-390 | the loop ends and performs the actions of the drain in order; false exactly when one of them sends too much into a free slot |
| WorkerLoop.Worker.HandleRequest | src/worker.rs:144-207 | a task, drained before it enters the table, or a 404; false exactly when the task cannot be built or its first drain sends too much |
| WorkerLoop.Worker.ProcessHttp | src/worker.rs:141-211 | all requests in order, each at its own time; false exactly when some task cannot be built or a drain sends too much |
| WorkerLoop.Worker.DeliverTo | src/worker.rs:219-226 | every listed live task takes the event once per listing, in list order, and no other task changes; false exactly when a task panics |
| WorkerLoop.Worker.ProcessBusRecv | src/worker.rs:213-243 | reads everything past the cursor, in order: every task is its old self after the events for it; false exactly when a task panics |
| WorkerLoop.Worker.ProcessTick | src/worker.rs:134-139 | ticks every task once, whatever the order of the table |
| WorkerLoop.Worker.PopTasks | src/worker.rs:314-327 | drains every task of the table exactly once; false exactly when one of the drains sends too much |
| WorkerLoop.Worker.FindTask | src/worker.rs:250-278 | the task of an address, binding a new one by its ufrag; false exactly when an unknown address sends what is not STUN |
| WorkerLoop.Worker.HandleDatagram | src/worker.rs:247-303 | the datagram is handed over and its task drained at once, at the time it was read; false exactly on a panic in decoding, the task or the socket |
| WorkerLoop.Worker.ProcessUdp | src/worker.rs:245-304 | all datagrams in order; false exactly on a panic in decoding, a task or the socket |
| WorkerLoop.Worker.CleanChannels | src/worker.rs:399-414 | the loop filters consumers and drops entries empty on both sides |
| WorkerLoop.Worker.RemoveTask | src/worker.rs:394-414 | all tables are cleaned; false exactly when the task is not there |
| WorkerLoop.Worker.PopEndedTasks | src/worker.rs:392-416 | the list is emptied and its tasks removed in order |
| WorkerLoop.Worker.ProcessCycle | src/worker.rs:113-132 | the phases in the source's order, each with its own clock; the log grows by what the actions broadcast, the socket's calls by the sends and then one commit and one finish, the responses are those to the requests; false exactly when the cycle crashes, in a phase, in a send or in `finish_read_from` |
| ClusterSafety.NodeStepOk | src/worker.rs:113-132 | a step of a worker crashes if and only if it meets a bad offer, a missing stream, an unreadable datagram or a send too long for its free slot; otherwise its tables, histories and tasks stay consistent with each other |
| ClusterSafety.RunKeeps | src/controller.rs:25-44 | every interleaving of N workers keeps every worker and the log in order |
| ClusterSafety.WorkerCrashesExactly | src/tasks/whip.rs:112-142 | over whole runs a worker's step crashes if and only if it meets a bad offer, a missing stream, an unreadable datagram or a send too long for its free slot: no `panic!` or `todo!` arm is reached, and the `expect` of a removal holds |
| ClusterSafety.CrossWorkerDelivery | src/worker.rs:213-243 | a task's bus inputs are the log events its worker read while it lived, in log order, once per registration made before; workers read without gaps; each task's share of the log is what its actions say |
| ClusterSafety.PublisherProvenance | src/worker.rs:351-359 | the actions taken from a task so far, the broadcast ones among them, are a prefix of its first response and the translation of what its engine gave up |
| EndToEnd.Window | src/worker.rs:217-228 | a viewer that subscribed to a track once gets on it the media its worker read in one stretch, from the subscription on and for as long as it lives |
| EndToEnd.JoinsLate | src/controller.rs:33-35 | a worker reads from where the log was when it joined, nothing older |
| EndToEnd.PublisherStretch | src/worker.rs:351-359 | what a task put on any stretch of the log is a gap-free stretch of the translation of what its engine gave up |
| EndToEnd.ViewerGetsStretch | src/worker.rs:213-228 | from engine to viewer over whole runs: what a viewer that subscribed once is given on a track is the media of one stretch of the log; each publisher's share of it is a gap-free stretch of the translation of its engine's outputs, and all of it if nobody else published |
| EndToEnd.EngineToViewer | src/worker.rs:213-359 | whatever the workers do in between: the media a viewer that subscribed once is given on a track with one publisher is one gap-free stretch of the packets that publisher's engine put out for the track, in order, payload type, sequence number and payload unchanged |
| EndToEnd.MediaIsRtp | src/tasks/whip.rs:195-205 | the media a publisher puts on a track is its engine's RTP, packet for packet: payload type 111 on the audio track, everything else on the video track |
| EndToEnd.ViewerAsks | src/tasks/whep.rs:214-220 | a viewer puts on the bus exactly the keyframe requests of its engine, each with its kind, for its video track |
| EndToEnd.Announces | src/tasks/whip.rs:172-181 | each time its engine connects a publisher announces both its tracks, and a viewer asks for both of its own; neither does anything of the other's kind |
| ClusterSafety.TablesAgree | src/worker.rs:74-78 | in every run the six structures of every worker agree, consumers with multiplicity, sources through live tasks |
| ClusterSafety.BindingStays | src/worker.rs:250-267 | over whole runs: an address bound to a task is bound to it in every later state in which the task lives, and the id is never given to another task |
| CycleRuns.CycleIsRun | src/worker.rs:113-132 | in every reachable system a whole cycle that meets good offers, streams, datagrams and sends, and a socket that finishes, does not crash and is a run of single steps with the same tables, cursor and broadcasts, so the run theorems hold after it |
| CycleRuns.DrainRuns | src/worker.rs:329-390 | a drain is a run of single turns, given that the task ends once |
| CycleRuns.RemovalRuns | src/worker.rs:392-416 | draining the list at once and removing one by one come to the same |
| Replies.HttpOneReplies | src/worker.rs:144-207 | a request is answered once, at once, with 200 or 404 by its path, and no response waits in any task afterwards |
| Replies.DrainQuiet | src/worker.rs:346-350 | a task with no response queued never gives one, whatever its engine puts out |
| Replies.CycleReplies | src/worker.rs:113-132 | over a whole cycle a worker answers exactly the requests it took, each once, in order, with the right status |
| Requests.Conservation | src/main.rs:97-121 | with workers that run their real phases: every id handed out is in exactly one place: a channel, a worker's hand, the response channel, answered, given up; no other id is anywhere |
| Requests.HandleKeeps | src/worker.rs:142-211 | what a worker's request handling emits moves the request on by exactly one response |
| Requests.WorkKeeps | src/worker.rs:113-139 | no other phase of a worker answers anybody |
| Requests.RightAnswers | src/main.rs:113-122 | every response a client gets is for the request issued under that id, with 200 exactly for the two endpoints |
| Requests.CrashesExactly | src/main.rs:97-147 | the front end crashes if and only if a request finds no workers, a body cannot be read, or a client is gone; every response popped finds its request in `reqs`, whenever workers reply |
| Requests.DroppedStaysOpen | src/controller.rs:58-60 | a request given up is never answered and its entry stays open for the rest of the run |
| Requests.RoundRobin | src/controller.rs:53-66 | each of k workers was offered n/k of n requests, the first n%k one more, taken or not; no two differ by more than one |
| RequestOrder.RunLined | src/controller.rs:53-66 | in every run request n is only ever in line at worker n modulo the number of workers, and each worker takes its requests in the order they were made |
| RequestOrder.DropsExactly | src/controller.rs:58-60 | a step gives a request up exactly when the channel of its worker holds a hundred or the worker is gone, or when its response finds a hundred others; the responses that are not given up are answered in the order they were given |
| Requests.Controller.Input | src/controller.rs:53-66 | the next worker in turn gets the request unless its channel is full or it is gone; nobody else does |
| Requests.Controller.PopAction | src/controller.rs:67-69 | the oldest response |
| Requests.FrontEnd.HandleRequest | src/main.rs:97-111 | dispatch, then the entry in `reqs`, then the next id; false exactly when that crashes |
| Requests.FrontEnd.Respond | src/main.rs:113-147 | all responses there are answered in order, each finding its request; false exactly when a client is gone |
| Trickle.BatchesAndPending | public/whip/whip.js:42-235 | candidates stored are the batches taken, in order, and then those pending, in every interleaving |
| Trickle.ArmedStep | public/whip/whip.js:183-235 | from a state in which pending data has an armed timer, exactly a trickle without a resource and a stop of a connected client lead out |
| Trickle.UnarmedStep | public/whip/whip.js:42-59 | pending data without a timer stays so until exactly the next accepted candidate event, restart or schedule |
| Trickle.UnarmedExactly | public/whip/whip.js:183-235 | in every run pending data is without a timer if and only if one of those two happened to pending data and nothing armed the timer since |
| Trickle.PendingIsArmed | public/whip/whip.js:183-235 | after `publish` has scheduled and until `stop`, pending data has an armed timer, and the timer takes all of it |
| Trickle.UnarmedBeforeSchedule | public/whip/whip.js:207-225 | a concrete run, a restart before the resource is known, that leaves data pending with no timer |
| Trickle.Grouping | public/whip/whip.js:256-287 | grouping fails exactly on an unknown media id or a missing first transceiver; otherwise each group has the candidates of its id in order, the first media's group leading |
| Trickle.FirstKind | public/whip/whip.js:273-273 | a media id has the kind of the first transceiver with it |
| Trickle.ValuesMembers | public/whip/whip.js:289-289 | listing the groups loses and repeats none |
| Trickle.ValuesOrdered | public/whip/whip.js:289-289 | index-like media ids are listed in ascending order before the others, which keep the order they were added in |
| Trickle.FragmentRoundTrip | public/whip/whip.js:253-300 | a fragment reads back: its lines are in order, its credentials are the given user name and password, once each and before any section, and its sections are the groups, all marked ended or none |
| Trickle.FragmentCarries | public/whip/whip.js:227-300 | a reader of a batch's fragment finds under every media id that id's candidates in the order stored |
| Trickle.FragmentSays | public/whip/whip.js:237-300 | the fragment of a batch has the credentials once and first, sections exactly if there are candidates or their end, and each marked ended exactly if the batch has the end of candidates and is no restart |
| Trickle.RendersExactly | public/whip/whip.js:237-287 | a batch becomes a fragment if and only if there is a connection, a restart's offer is accepted and every media id it needs is known |
| Trickle.DeliveredExactly | public/whip/whip.js:42-300 | in every interleaving, whatever became of each batch, readers find under every media id the stored candidates of the batches that became fragments, in order and once; that is all but the pending if and only if no batch with candidates was lost |
| TrickleStory.RunTold | public/whip/whip.js:42-235 | in every interleaving the events alone say everything: what waits and is flagged is what came since the last batch, every batch has exactly the candidates, the end and the restart that came since the one before, and the timer is armed exactly if something armed it that neither a run nor a stop undid |
| TrickleStory.StoppedStays | public/whip/whip.js:360-378 | after a stop the timer does not run and no batch is taken until something arms it again |
| Trickle.WhipClient.BeginPublish | public/whip/whip.js:15-23 | refused exactly when already publishing |
| Trickle.WhipClient.OnIceCandidate | public/whip/whip.js:42-59 | stores a candidate of the first line or the end mark and arms the timer; others change nothing |
| Trickle.WhipClient.ScheduleTrickle | public/whip/whip.js:183-185 | arms the timer |
| Trickle.WhipClient.RestartIce | public/whip/whip.js:207-215 | asks for a restart and arms the timer |
| Trickle.WhipClient.TakeTrickle | public/whip/whip.js:217-235 | takes everything pending as one batch, with whether there is a connection, or nothing without data or resource |
| Trickle.WhipClient.StopPublishing | public/whip/whip.js:360-378 | cancels the timer and leaves no connection; false when there is no resource to delete |
| Trickle.GroupCandidates | public/whip/whip.js:256-287 | the loop computes the grouping |
| Trickle.WriteFragment | public/whip/whip.js:253-300 | the loops write a well-formed fragment: the user name and the password, then sections that read back as the groups |
| Trickle.BuildFragment | public/whip/whip.js:237-300 | a batch's fragment, with the credentials first and once, marked ended exactly if the batch ended and is no restart, carrying every candidate under its media id; nothing without a connection, after a rejected restart offer, or with an unknown media id |

## Left out

- str0m, DTLS, SDP and ICE: the engine is an oracle. Whether an offer builds a task, a datagram parses
  and a stream exists are inputs of the model.
- STUN decoding: what decoding makes of a datagram is an input of `process_udp`.
- The kernel beyond the assumptions above: raw pointers, `msghdr` and `iovec`, the 1532-byte receive
  layout and its parsing, socket options and probes.
- The worker's socket is a list of calls, not an object of a socket class: which of its calls find a
  slot free, and whether `finish_read_from` returns, are inputs of a cycle. `SocketCalls.CycleFlushes`
  runs such a list on the io_uring socket.
- The other fields of an RTP packet (timestamps, marker, header extensions): it is payload type,
  sequence number and payload.
- The end of the main thread under running workers, where the `unwrap` at `src/worker.rs:205` fails.
- The bus's capacity of 1000, blocking on it, its mutex, sleeping and real time: the log is unbounded
  and time is a parameter.
- Wrap-around of the 64-bit counters (`task_id_seed`, `count`, `req_id`).
- The hash behind track ids: ids are data, so collisions of channels are allowed.
- Header maps and bodies of HTTP messages; the model keeps request id, path and status.
- Tasks inside the worker's table are values; the task classes are proved against the same functions,
  so aliasing between a table entry and a task object is not modelled.
- Several workers' cycles interleaved with each other: the cluster interleaves their single steps, and
  `CycleRuns.CycleIsRun` is about one worker's cycle that nobody interrupts.
- `src/net/socket2.rs` passes calls through, and the receive side of `src/net/socket2_mmsg.rs` does too.
- Static files, CORS, the command line, logging, HTML, type declarations, `Link` headers.
- `public/whep/whep.js` repeats the trickle code of `public/whip/whip.js` and is not modelled again.
- `trickle` after its first wait: the restart offer itself, the request and patching the remote
  description. Requests of two batches may overtake each other on the network; the theorem is about
  the fragments in batch order.
- Rendering fragment lines as text, and media ids that are names of built-in object properties.
