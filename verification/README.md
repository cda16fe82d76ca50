# A verified model of the RDMA transport

The repository moves tensors between GPU memories with one-sided RDMA and tells the other side, through
one 4096-byte buffer per host, when a request is complete. There is no lock and no acknowledgement
between the two hosts: everything rests on where each side posts its one receive, on the order in which
one thread posts and polls, and on a size travelling in the immediate word. This project models that
protocol, its message format and its completion window, and proves what every run of it keeps.

`dafny verify dfyconfig.toml` checks everything.

## How the model is laid out

| files | contents |
|---|---|
| `Bytes`, `Codec`, `ImmWord` | integers, the two message formats, the packed and byte-swapped immediate |
| `MemBuffer`, `Completion`, `Registration` | the CPU buffer, the completion window and the registration loops, as classes and loops proved against values |
| `Commands`, `Journal` | what the worker's commands mean: a fold of slice copies, a list of messages, a list of ids; and the history of effects |
| `Endpoints`, `Exchange` | the worker loop, the server loop and the table exchange as sequential code, over the fabric's verdicts |
| `Protocol` | one connection as a state machine: both programs, both queue pairs, the fabric |
| `Invariant`, `Preservation`, `FabricPreservation` | the inductive invariant and its preservation by every action but a failed poll |
| `Shadows` | what a failed poll that ends its program comes to, so that the invariant covers it |
| `Theorems`, `Delivery`, `Order`, `Reports`, `Shutdown`, `Failures` | what follows for every run of one connection |
| `Always`, `Tearing` | what is left once the worker has gone on after a failed poll: an invariant of every reachable state, and which messages can be torn |
| `Progress`, `Answers`, `Serving` | the handshake ends, when a waiting client can still be answered, and from start to rest every message is returned |
| `Refinement` | the state machine and the sequential code agree |
| `System` | any number of connections sharing the server's memory and window |
| `Witness` | runs that show where a guarantee stops |

In `Protocol` the client program is `ConnectStep` (`rdma-transport/src/rdma/client.rs:78-169`) and
`WorkerStep` (`rdma-transport-py/src/vllm/client.rs:81-172`), the server program is `AcceptStep`
(`rdma-transport/src/rdma/server.rs:87-168`) and `LoopStep`
(`rdma-transport-py/src/vllm/server.rs:71-90`). Each post, each poll and each local computation is a step
of its own, each call that can be refused has a refusal, and each poll can fail. The fabric is the rest
of the actions. Its assumptions are the guards and effects of those actions and nothing else:

- a reliable connection delivers in order while both queue pairs are healthy (InfiniBand Architecture
  Specification, Volume 1, sections 9.5 and 9.7);
- a SEND and a write with an immediate wait until the receiver has posted a receive;
- placing the payload, consuming the receive and completing on both sides is one step;
- the adapter reads a payload at any moment between post and completion, and may read it again;
- a queue pair may fail at any moment, stays failed, and completes what is posted with an error;
- a message may land although its sender sees an error.

The client's own program may write to its GPU memory, and others to the server's, at any moment.

The programs and the proofs share their vocabulary: `Address`, `Transfer`, `Allowed`, `Handled` and the
like. What these mean is stated without them, on the fields of commands, buffers and arrivals: `Moves`,
`PlainEvent`, `LocalInRange`, `RemoteInRange`, `Unworkable`, `Brought` and `TableIn` are the predicates for
that, and the statements of the table below that speak of bytes, sizes and errors are made with them.

`Sound` is the condition of most theorems: the state is reachable and the worker has not gone on after a
poll call that itself returned an error. A failed poll anywhere else, in `connect`, `accept`, `disconnect`
or the notification loop, ends the program that polls and is within the theorems, as are refused posts,
failed queue pairs, lost acknowledgements and commands that fail their access checks. A failed poll for a
transfer or for the message of a `Complete` is the one the worker survives. From then on each of its polls
takes the completion before its own, so its outcomes no longer say what has happened. `Always` has what
holds even then: requests take effect in the order of their commands, each effect is its command's copy
and comes after everything posted before it, and the server keeps step with what arrives. The theorems of
`Always` and `Tearing` are about every reachable state.

## What does not hold

Five statements one might expect are false of the code. Each has a run and an exact condition here.

- The notifications the server returns are the first of those the client submitted only if none of them
  was submitted after a message whose post was refused: the worker logs a refused post and goes on, so that
  message is skipped for good (`RefusedMessageIsLost`; exact in `GapFreeIff`).
- The client's `is_complete` can be true although the server was told nothing, because the window is
  updated before the write and kept when the write fails (`ClientReportsUndelivered`). While the queue pair
  is healthy the server was told if and only if some post for the id was not refused (`ToldIff`); after a
  failed completion nothing the client has can tell (`FailedEitherWay`).
- One of the last `capacity - 1` ids can be missing from the window when ids are reused: evicting the
  older copy removes the id from the set (`ReusedIdIsForgotten`; exact in `ForgottenIff`).
- `connect` does not always return: with more than 340 buffers the server gives up and the client polls
  for a table that never comes (`TooManyBuffersHang`; without refusals and faults exact in
  `InterleavedIff`). A server that has failed or was refused a call leaves the client polling as well: in
  every sound state a waiting client can be answered if and only if both queue pairs are up and the server
  has sent what it waits for or is still going to (`AnswerableIff`).
- A message of the worker can be torn, although it polls for each before it takes the next command: after
  any failed poll that it survives, of a message or of a transfer, a message can be serialised over one
  still queued. That can be the message whose poll failed (`FailedPollTearsMessage`), or a later one whose
  own poll returned Ok by taking the completion before it (`OkIsMisread`). In every reachable state a message
  is safe as long as none is serialised over it (`FailedPollHarmless`), and one that can still be read can
  be misread if and only if that has happened (`TornIff`).

The size constants of `rdma-transport/src/buffer/mod.rs` speak of 16 slots, but `MemBuffer` holds one;
the model follows the buffer.

## Model

| member | source | states |
|---|---|---|
| Shadows.ReachableInv | rdma-transport-py/src/vllm/client.rs:81-172 | every sound state, through every interleaving of both programs, the fabric, refusals, faults, lost acknowledgements and failed polls that end their program, is one that satisfies the invariant, but for such a program, which in the other still waits at its poll |
| Shadows.ShadowStep | rdma-transport/src/rdma/server.rs:170-186 | when a poll ends its program, everything the other side and the fabric do from then on is what they could have done had the program merely never been scheduled again |
| FabricPreservation.StepKeeps | rdma-transport/src/rdma/mod.rs:80-180 | each single action, of a program or of the fabric, keeps the invariant, a failed poll excepted |
| Preservation.ConnectKeeps | rdma-transport/src/rdma/client.rs:78-169 | every step of `connect` keeps it |
| Preservation.AcceptKeeps | rdma-transport/src/rdma/server.rs:87-168 | every step of `accept` keeps it |
| Preservation.WorkerKeeps | rdma-transport-py/src/vllm/client.rs:81-172 | every step of the worker keeps it |
| Preservation.LoopKeeps | rdma-transport-py/src/vllm/server.rs:71-90 | every step of the notification loop keeps it |
| Theorems.QueueBounds | rdma-transport/src/rdma/client.rs:36-43 | at most one send and one receive are outstanding on each side, polled or not, as the queue pairs were created for, and a completion the worker polls is that of the command it just posted |
| Theorems.OpcodesExpected | rdma-transport/src/rdma/server.rs:193-204 | the first receive of each side completes a SEND and all later ones a write with an immediate, so the default notification and the opcode error are never reached on good completions |
| Theorems.SlicesDecode | rdma-transport/src/rdma/client.rs:106-110 | every slice taken by the received size lies in the buffer, has the size of the encoding, `8 + 12 n`, 5 or 13 plus the id, and decodes: at the client to the server's table, at the server to the message whose turn it is |
| Theorems.StagedStays | rdma-transport/src/rdma/server.rs:93-118 | in every interleaving what was serialised stays in the buffer until its write completes: the table at the server, the current message at the client |
| Theorems.HandshakeAgreement | rdma-transport/src/rdma/client.rs:106-121 | when `connect` has returned Ok the client holds the server's CPU buffer address and key and a map that equals the server's base-to-key table, repeated bases included; when `accept` has, the server holds the client's |
| Theorems.TableWhole | rdma-transport/src/rdma/server.rs:91-107 | the table write is reached exactly when there are at most 340 buffers, and a connected client has the whole table |
| Theorems.NonInterference | rdma-transport/src/rdma/server.rs:91-118 | in every interleaving the server's CPU buffer changes only when it serialises or when its loop waits for a message, and the client's only when it serialises or when it waits for the table, unless the program that waited has died |
| Delivery.NotificationsInOrder | rdma-transport/src/rdma/server.rs:170-205 | what `handle_notification` has returned is, in order and byte for byte, the start of the messages whose write took effect, and without refused posts the start of all messages submitted |
| Delivery.ReturnedIs | rdma-transport/src/rdma/mod.rs:66-78 | each returned notification has `done = 0` and the id of the `Complete` whose message it is, or `done = 1` and no id if that is a `Disconnect` |
| Delivery.DataBeforeCompletion | rdma-transport-py/src/vllm/server.rs:71-85 | when the server has recorded an id, every earlier `Send` or `Recv` of at least one byte that returned Ok took effect before that id's message: the bytes at base plus offset of the one block, as they were at one moment after the post, are at base plus offset of the other; every earlier one returned Ok or had its post refused |
| Delivery.MemoriesAreFold | rdma-transport-py/src/vllm/client.rs:110-157 | if nobody else writes, both GPU memories are at every moment the fold over the commands and their outcomes, each step of which moves the `size` bytes from base plus offset to base plus offset, sums modulo 2^64, and changes no other byte |
| Always.ReachableLine | rdma-transport-py/src/vllm/client.rs:81-172 | once the worker has begun, every reachable state, whatever has failed: the queue holds the requests of later and later commands with the right contents, effects happen in command order and after everything posted before them, nothing posted is lost on a healthy queue pair, the server has returned all arrivals but one it has in hand, and both memories replay the effects |
| Always.LineStep | rdma-transport-py/src/vllm/client.rs:103-156 | every action keeps that, a failed poll included |
| Always.MemoriesReplayJournal | rdma-transport/src/rdma/mod.rs:116-180 | in every reachable state, whoever writes, both memories are the journal of effects replayed over the first memories, and each effect of a command has the address base plus offset of the block written and the `size` bytes at base plus offset of the block read |
| Always.MemoriesByByte | rdma-transport/src/rdma/mod.rs:116-180 | in every reachable state each byte of either memory is what the last effect or foreign write that covers it put there, and its first value if there is none |
| Always.SkippedIff | rdma-transport-py/src/vllm/client.rs:110-113 | in every reachable state exactly the `Send`s and `Recv`s of no bytes have been skipped |
| Always.PanicsIff | rdma-transport-py/src/vllm/client.rs:83-139 | taking a command ends the worker exactly when it is a `Complete` that does not fit 4096 bytes or a transfer of at least one byte at whose local or remote base nothing is registered |
| Always.SentBlockInPlace | rdma-transport-py/src/vllm/client.rs:110-133 | in every reachable state a sent block is in the server's memory until something overlapping is written |
| Always.ReceivedBlockInPlace | rdma-transport-py/src/vllm/client.rs:134-157 | in every reachable state a received block is in the client's memory until something overlapping is written |
| Always.MessageAfterData | rdma-transport-py/src/vllm/client.rs:81-172 | in every reachable state, whatever has failed, each message that has arrived came after every earlier `Send` or `Recv` of at least one byte had moved its bytes whose post was not refused |
| Always.RecordedAfterData | rdma-transport-py/src/vllm/server.rs:71-85 | in every reachable state a recorded id was read out of an arrival of which that is true; unless the worker has gone on after a failed poll, that was the id's own message |
| Order.GapFreeIff | rdma-transport-py/src/vllm/client.rs:97-108 | the messages the server has returned are the first ones submitted, without a gap, if and only if none of them was submitted after a message whose post was refused |
| Reports.ClientReportsIff | rdma-transport-py/src/vllm/client.rs:210-219 | in every reachable state, whatever has failed, `is_complete` is true if and only if the lock is free and no copy of the id was evicted since its last addition; the lock is held exactly from the addition to the end of the command |
| Reports.ClientCompletionConservative | rdma-transport-py/src/vllm/client.rs:92-108 | in every reachable state the client reports an id only after a write for it has returned, and only if it is among the last `capacity - 1` |
| Reports.WindowStorage | rdma-transport-py/src/vllm/client.rs:92-96 | in every reachable state the client's queue fits its first allocation, and is shorter than it whenever the lock is free |
| Reports.ToldIff | rdma-transport-py/src/vllm/client.rs:97-108 | while the queue pair is healthy and no completion is under way, the server has been told of an id if and only if some post for it was not refused |
| Reports.OutcomeTells | rdma-transport/src/rdma/mod.rs:99-113 | in every sound state an Ok means the server has the message, a refused post that it never will, and a failed completion comes only with a failed queue pair |
| Shutdown.ClientSaidAll | rdma-transport/src/rdma/client.rs:171-184 | when the worker has ended and no post was refused, every message up to its `Disconnect` has landed, and the server has returned all of them or all but the last |
| Shutdown.ShutdownArrives | rdma-transport-py/src/vllm/server.rs:71-90 | from then on a live server can always take a step until it stops, and every run with three of its steps has stopped it, whatever else happens |
| Shutdown.CleanShutdown | rdma-transport-py/src/vllm/server.rs:71-90 | a server stopped by the shutdown message has returned exactly the messages before the first `Disconnect` and then one with `done = 1`, and recorded exactly the ids completed before it |
| Shutdown.ShutdownLandsFirst | rdma-transport/src/rdma/client.rs:171-184 | the shutdown message has landed at the server before the client disconnects |
| Shutdown.NothingAfterShutdown | rdma-transport-py/src/vllm/client.rs:158-169 | once the client has sent it, or has died, no later run takes a command or changes a memory on this connection's account, whatever is submitted; a program that died at a failed poll may have left one message |
| Failures.DisconnectedIsDown | rdma-transport/src/rdma/client.rs:183 | in every reachable state a program that has disconnected has its queue pair down, and nothing is delivered either way |
| Failures.FailedLoopIsOver | rdma-transport-py/src/vllm/server.rs:71-72 | a refused receive, a failed poll, a receive that completed with an error or bytes that are no notification end the loop: nothing is returned or recorded for it, or in any later run |
| Failures.FailedAcceptIsOver | rdma-transport/src/rdma/server.rs:91-118 | a refused call, a failed poll, a completion with an error or a table longer than the buffer ends `accept`: in every later run the server's next and last step is to disconnect, and it returns and records nothing |
| Failures.FailedClientIsOver | rdma-transport/src/rdma/client.rs:89-110 | a refused call, a failed poll, a completion with an error, another opcode or bytes that are no table end `connect`, and the first three end `disconnect`: the client does nothing more in any later run |
| Failures.FailedCommandGoesOn | rdma-transport-py/src/vllm/client.rs:97-156 | a refused post, a failed poll or an error completion of any other command is survived: the following command is next, the lock is free, and what a failed poll leaves on the queues stays there |
| Failures.FailuresHappen | rdma-transport/src/rdma/mod.rs:89-113 | each of these failures is possible whenever the program is at that call |
| Tearing.FailedPollHarmless | rdma-transport-py/src/vllm/client.rs:97-108 | from every reachable state in which a message is about to be posted, whatever polls have failed before or fail later: in every continuation in which none is serialised while it is queued, the server never misreads it, and if it returns it, returns exactly it |
| Tearing.TornIff | rdma-transport/src/rdma/mod.rs:102-104 | in every reachable state, for every queued message that some continuation without further serialising over it brings to the server: some such continuation misreads it if and only if a different message is now in the buffer or in what was fetched for it |
| Tearing.OldestCanBeRead | rdma-transport/src/rdma/server.rs:176-186 | the oldest queued message can be brought to the server from every reachable state in which both queue pairs are up and the loop comes round to wait |
| Tearing.AliveComesRound | rdma-transport-py/src/vllm/server.rs:71-85 | a server whose loop is alive at the failed poll comes round to wait for the message by its own steps |
| Tearing.WhatIsRead | rdma-transport/src/rdma/server.rs:193-202 | the server makes of an overwritten message the later one if that is not longer, and nothing that decodes if it is |
| Progress.SomeStep | rdma-transport/src/rdma/client.rs:124-169 | in every undisturbed state before the end of the handshake some step of a program or the fabric is enabled: there is no circular wait |
| Progress.StepDescends | rdma-transport/src/rdma/server.rs:123-168 | every such step lowers a rank and leaves the handshake undisturbed |
| Progress.AsideStep | rdma-transport-py/src/vllm/client.rs:81-172 | nothing else that can happen meanwhile, commands submitted and carried out included, disturbs the handshake or raises the rank |
| Progress.HandshakeTerminates | rdma-transport/src/rdma/client.rs:124-169 | whatever the interleaving, a run of handshake steps is no longer than the rank, and one that cannot go on has connected both sides or stalled |
| Progress.InterleavedTerminates | rdma-transport/src/rdma/client.rs:124-169 | the same bound on the handshake steps of a run in which anything but faults, refusals and panics is interleaved |
| Progress.HandshakeCompletes | rdma-transport/src/rdma/server.rs:123-168 | from every undisturbed state such an end can be reached |
| Progress.HandshakeIff | rdma-transport/src/rdma/server.rs:91-107 | a run of handshake steps ends within 76 steps, with Ok on both sides if and only if the server has at most 340 buffers |
| Progress.InterleavedIff | rdma-transport/src/rdma/server.rs:91-107 | so does every run, whatever else is interleaved, as far as its handshake steps go |
| Answers.AnswerableIff | rdma-transport/src/rdma/client.rs:78-169 | in every sound state a client that polls for the hello or the table can still be answered if and only if both queue pairs are up and the server has sent it, or is at a step before sending it and has at most 340 buffers if it is the table |
| Progress.StallLasts | rdma-transport/src/rdma/client.rs:89-97 | a stalled client stays stalled through every run in which neither its queue pair nor its poll fails |
| Progress.TooManyBuffersHang | rdma-transport/src/rdma/server.rs:91-107 | with more than 340 buffers there is a fault-free run after which the client polls for ever |
| Serving.FeasibleIff | rdma-transport-py/src/vllm/client.rs:83-157 | a command is feasible exactly when its message fits 4096 bytes and, if it moves at least one byte, both blocks lie in registered buffers |
| Serving.SomeWork | rdma-transport-py/src/vllm/client.rs:81-172 | once connected, with nothing infeasible submitted, some step that carries a command on is enabled until all are done: no circular wait between the worker's poll and the receive the server posts again |
| Serving.WorkDescends | rdma-transport-py/src/vllm/server.rs:71-90 | every such step lowers a rank of commands left, request on the queue and server steps left |
| Serving.WorkTerminates | rdma-transport-py/src/vllm/client.rs:81-172 | in every run without fault, refusal or failed poll those steps are bounded by the rank and 16 for every command submitted, however the rest is interleaved |
| Serving.EverythingReturned | rdma-transport/src/rdma/server.rs:170-205 | when none is left, every command up to the first `Disconnect` has returned Ok but the transfers of no bytes, which were skipped, the server has returned every message and recorded every id, and if nobody else writes both memories are the fold |
| Serving.WorkCompletes | rdma-transport-py/src/vllm/server.rs:71-90 | from every such state that point can be reached |
| Serving.EndToEnd | rdma-transport-py/src/vllm/client.rs:60-172 | from the start: in every run without fault, refusal or failed poll whose commands are feasible, once no step of handshake or work is enabled, both sides are connected and everything up to the first `Disconnect` has been returned and recorded if and only if the server has at most 340 buffers; with more the client waits for the table |
| System.Linearised | rdma-transport-py/src/vllm/server.rs:66-92 | however many connections interleave, the shared window outside the lock is that of one history holding each connection's ids in order, addition and eviction are never seen apart, and at most one connection is inside the lock |
| System.ServerReportsIff | rdma-transport-py/src/vllm/server.rs:101-110 | in every reachable system `is_complete` is true if and only if the lock is free and no copy of the id was evicted since its last addition by any connection; the lock is held exactly while some connection is between the two |
| System.ServerCompletionMeansData | rdma-transport-py/src/vllm/server.rs:71-110 | when the server reports an id, it is among the last `capacity - 1` of the history and was read out of an arrival of some connection before which every earlier `Send` or `Recv` of at least one byte of that client had moved its bytes whose post was not refused; unless that connection's worker went on after a failed poll, the client completed that id there and its earlier Ok transfers took effect before, whatever happens on other connections |
| System.SystemRunKeeps | rdma-transport-py/src/vllm/server.rs:59-93 | every run of the whole server keeps the lock discipline, the shared memory and every connection's own guarantees |
| Completion.WindowExact | rdma-transport-py/src/vllm/mod.rs:29-46 | after any history of additions an id is reported if and only if no copy of it was evicted since its last addition |
| Completion.WindowQueue | rdma-transport-py/src/vllm/mod.rs:44-46 | the queue is the last `capacity - 1` additions and its room never changes |
| Completion.ReportedIsRecent | rdma-transport-py/src/vllm/mod.rs:40-42 | a reported id is one of the last `capacity - 1` |
| Completion.DistinctReportedIffRecent | rdma-transport-py/src/vllm/server.rs:78-84 | if ids are not reused, reported means exactly that |
| Completion.ReusedIdIsForgotten | rdma-transport-py/src/vllm/mod.rs:34-38 | for every capacity, an id added first and last among `capacity` additions is the newest of the queue and missing from the set |
| Completion.ForgottenIff | rdma-transport-py/src/vllm/mod.rs:34-38 | an id is reported if and only if no older copy was evicted after its newest was added |
| Completion.CompletionReqs.AddReq | rdma-transport-py/src/vllm/mod.rs:29-32 | adds to queue and set, with reallocation written out, and never reallocates between the callers' rounds |
| Completion.CompletionReqs.RemoveFirst | rdma-transport-py/src/vllm/mod.rs:34-38 | drops the oldest id from both |
| Completion.CompletionReqs.IsReqComplete | rdma-transport-py/src/vllm/mod.rs:40-42 | between rounds, answers whether any copy of the id was evicted since it was last recorded |
| Completion.CompletionReqs.IsFull | rdma-transport-py/src/vllm/mod.rs:44-46 | never true between rounds, and within one exactly when at least as many ids have been recorded in all as there is room for |
| Completion.CompletionReqs.Record | rdma-transport-py/src/vllm/client.rs:92-96 | the callers' addition and eviction is one round of the window whose meaning `WindowExact` gives, and keeps the window that of the recorded history |
| Codec.DecodeNotificationExact | rdma-transport/src/rdma/mod.rs:66-78 | decoding yields a notification if and only if the input starts with its encoding |
| Codec.NotificationLayout | rdma-transport/src/rdma/mod.rs:66-70 | where each field of the encoding is, and its length, 5 or 13 plus the id |
| Codec.NotificationWords | rdma-transport/src/rdma/mod.rs:66-70 | the value of its integers byte by byte, least significant first |
| Codec.NotificationsPrefixFree | rdma-transport/src/rdma/mod.rs:66-70 | no notification's encoding is the start of another's |
| Codec.DecodeConnectionsExact | rdma-transport/src/rdma/mod.rs:48-57 | the same if and only if for the table |
| Codec.ConnectionsLayout | rdma-transport/src/rdma/mod.rs:28-51 | where the count and each entry's address and key are |
| Codec.NotificationOverStale | rdma-transport-py/src/vllm/client.rs:89-90 | laid over any earlier contents, a notification is read back exactly from its own length |
| Codec.ConnectionsOverStale | rdma-transport/src/rdma/client.rs:106-110 | and so is the table |
| ImmWord.ImmediateSurvives | rdma-core/src/rdma/verbs.rs:160-162 | the word the receiver computes is the sender's, whatever the byte orders of the two hosts |
| ImmWord.NetworkOrder | rdma-transport/src/rdma/mod.rs:88-99 | whatever the host's byte order, the word stands in the work request with its most significant byte first |
| ImmWord.PackedHalves | rdma-transport/src/rdma/mod.rs:88 | the upper half of the word is the offset and the lower half the size, truncated to 16 bits |
| ImmWord.SizeWordExact | rdma-transport/src/rdma/mod.rs:88 | for every size that fits the buffer, the receiver's word is the size if and only if the offset is 0 |
| MemBuffers.MemBuffer.WriteAll | rdma-transport/src/buffer/mod.rs:80-84 | a write into the rest of the buffer copies what fits and fails if that is not all |
| MemBuffers.MemBuffer.SerializeNotification | rdma-transport/src/rdma/client.rs:178-180 | serialising in place overlays the encoding, succeeds if and only if it fits, and leaves the first 4096 bytes of it if not |
| MemBuffers.MemBuffer.SerializeConnections | rdma-transport/src/rdma/server.rs:91-94 | the same for the table |
| MemBuffers.MemBuffer.DeserializeNotification | rdma-transport/src/rdma/server.rs:193-202 | reading a slice of the buffer decodes exactly that slice, with the out-of-range and malformed cases told apart |
| MemBuffers.MemBuffer.DeserializeConnections | rdma-transport/src/rdma/client.rs:106-110 | the same for the table |
| Registration.RegisterBuffers | rdma-transport/src/rdma/server.rs:81-85 | the loop builds the table in buffer order and the map in which the last buffer at a base wins |
| Registration.CollectRemote | rdma-transport/src/rdma/client.rs:111-114 | the loop builds the map in which the last entry at a base wins |
| Registration.LocalMapLastWins | rdma-transport/src/rdma/client.rs:72-76 | the map holds, for each base, the last buffer registered there and nothing else |
| Registration.RemoteAgreesWithLocal | rdma-transport/src/rdma/client.rs:109-114 | the client's map and the server's have the same bases and keys, repeats included |
| Exchange.PollQueue | rdma-core/src/ibverbs/verbs.rs:11-30 | returns the first answer that is not zero, as a count or as an error |
| Exchange.SendTable | rdma-transport/src/rdma/server.rs:79-107 | succeeds if and only if there are at most 340 buffers; what goes out is the whole table with its size in the word |
| Exchange.TakeTable | rdma-transport/src/rdma/client.rs:89-114 | `connect` has a map if and only if the receive completed with success, carried an immediate of at most 4096 and brought bytes that start with a table, and then it is that table's map; each error case is told apart |
| Exchange.BroughtIsRead | rdma-transport/src/rdma/client.rs:106-114 | a whole table is read back as exactly its map |
| Exchange.ExchangeTable | rdma-transport/src/rdma/server.rs:79-107 | whatever the two buffers held, the client ends with the server's own table or the server gives up for its length |
| Commands.StepMoves | rdma-transport-py/src/vllm/client.rs:115-156 | what a command does to the memories byte by byte: `size` bytes from base plus offset of the one block to base plus offset of the other, sums modulo 2^64, in the direction of the command, and no other byte |
| Commands.AllowedIff | rdma-transport/src/rdma/mod.rs:116-180 | a transfer passes the checks exactly when its local block lies in the client's last buffer at that base, and as many bytes at base plus offset of the remote one lie in a buffer of the server with the key of its last one at that base |
| Commands.ResolvableIff | rdma-transport-py/src/vllm/client.rs:115-120 | the worker finds both blocks exactly when some buffer is registered at the base of each |
| Commands.FoldFrame | rdma-transport-py/src/vllm/client.rs:110-157 | a byte at no address of a landed transfer keeps its first value, in either memory |
| Commands.SendThenRecvRestores | rdma-transport-py/src/vllm/client.rs:110-157 | sending a block and receiving it back restores the client's memory, after any commands |
| Journal.JournalIsFold | rdma-transport-py/src/vllm/client.rs:110-157 | a history in which nobody else writes has the memories of the fold over the outcomes |
| Refinement.WorkerCouldHave | rdma-transport-py/src/vllm/client.rs:81-172 | every sound state has the outcomes of the worker's loop for some verdicts of the fabric, and by them the loop's memories, window and messages |
| Refinement.LoopHandles | rdma-transport-py/src/vllm/server.rs:72-76 | the state machine's loop returns the notification that a receive brought and is over if it brought none, as `HandleNotification` does |
| Refinement.ConnectTakes | rdma-transport/src/rdma/client.rs:89-120 | the state machine's `connect` ends with the map of the table that a receive brought and fails if it brought none, as `TakeTable` does |
| Endpoints.Worker.PostAndPoll | rdma-transport/src/rdma/mod.rs:124-146 | post then poll leaves the queue empty, or with the request on it if the poll call itself fails, and what landed is the request's effect and nothing else |
| Endpoints.Worker.WriteMetadata | rdma-transport/src/rdma/mod.rs:80-114 | if it lands, the server gets one more arrival that carries the staged notification whole; if the poll call fails, exactly that request stays queued |
| Endpoints.Worker.Transfers | rdma-transport-py/src/vllm/client.rs:115-156 | if it lands, exactly `size` bytes are moved from base plus offset to base plus offset, sums modulo 2^64; otherwise no byte changes, and no message is sent |
| Endpoints.Worker.Execute | rdma-transport-py/src/vllm/client.rs:83-157 | one pass over a command: skipped exactly if it is a `Send` or `Recv` of no bytes, refused exactly if its post is; memories, window and arrivals each take that command's step |
| Endpoints.Worker.Stop | rdma-transport/src/rdma/client.rs:171-184 | sends the shutdown message, hangs up only once it has completed, touches no memory, and succeeds only if both do |
| Endpoints.Worker.Run | rdma-transport-py/src/vllm/client.rs:81-172 | for any commands and any verdicts the memories are the fold, the window holds the completed ids, the server's arrivals are the landed messages in order, and the loop ends at the first `Disconnect`, panic, closed channel or failed poll call, with that call's request and no other on the queue |
| Endpoints.Server.HandleNotification | rdma-transport/src/rdma/server.rs:170-205 | returns a notification if and only if the receive was posted, polled and completed with success and either carried no immediate, then the default one, or a word of at most 4096 and so many bytes that start with its encoding; every error is told apart; a receive stays posted only if the poll itself fails |
| Endpoints.Server.Serve | rdma-transport-py/src/vllm/server.rs:71-90 | returns one notification for each receive that brought one, up to the first with `done`, records exactly their ids, and ends at the first receive that brought none |
| Endpoints.CarriesMeans | rdma-transport/src/rdma/server.rs:193-202 | an arrival that carries a notification is read back as it |
| Endpoints.Session | rdma-transport-py/src/vllm/client.rs:81-172 | worker and server together, for any order of their turns: the server has at every moment returned the first of the landed messages and recorded exactly their ids, and all of them once it has had as many turns as there are |
| Witness.ReadyExists | rdma-transport/src/rdma/server.rs:61-121 | every configuration whose table fits has a run that connects it, so the theorems speak of real runs |
| Witness.ClientReportsUndelivered | rdma-transport-py/src/vllm/client.rs:92-108 | a run in which the client reports an id the server was never told |
| Witness.FailedEitherWay | rdma-transport/src/rdma/mod.rs:106-111 | two runs with the same failed completion, the same to the client, of which one has told the server and the other has not |
| Witness.RefusedMessageIsLost | rdma-transport-py/src/vllm/client.rs:97-108 | a run in which a refused message is skipped and the next one delivered |
| Witness.FailedPollTearsMessage | rdma-transport/src/rdma/mod.rs:102-104 | for any two ids, a run in which, after a failed poll, the server returns the next message out of the write posted for the one before, or panics if the next is longer |

## Left out

- The foreign-function layers `cuda-sys`, `rdma-core-sys` and their call macros: replaced by the abstract fabric and memories.
- CUDA contexts, streams, events and copies (`rdma-transport/src/cuda/mod.rs`): calls into the driver, each passed on with its length clamped.
- Address resolution, endpoint creation, listening, socket parsing and device listing: input and output.
- `rdma-transport-py/src/general` and `cuda_ops.rs`: not compiled in, written for an older interface.
- Python bindings, logging, error texts, build scripts, demonstration programs.
- Placement of a message in several packets before a receiver-not-ready reply, retry timers and MTU: below the one-step delivery.
- The connection structs of the first exchange travel as values; their padding and the memory key of the receive they land in are not modelled.
- Metadata offsets other than 0: no caller uses them, and the buffer has one slot. `SizeWordExact` says what would break.
- The server's own shutdown through `tokio::select!`, and the abort of its tasks.
- The front-end calls `send`, `recv`, `complete` and `shutdown`: each is the action that submits a command; calls before `connect`, which do nothing, and a full channel are not modelled.
- `TensorBlocks`, a list of blocks with an append and a list of its base addresses, and the order of the blocks `connect` returns, which is that of a hash map.
- Address arithmetic wraps, as in a release build; a debug build panics instead.
- The GPU memories of a host are one address space apart from its CPU buffer, and a registration stays in force: a buffer that is freed while registered is not modelled.
- A disconnect fails the queue pair of the side that calls it; that the other side notices is a separate fault action, since nothing in the repository waits for that event.
- The call with which the server disconnects is taken to succeed; nothing follows it on that connection.
- The window's room is exactly what it asks for, as for a queue of vectors; an allocator that rounds up would make it larger.
- After a failed poll that the worker survives, what the later outcomes say of their own commands is not stated, since each is then taken from an earlier completion.
- Endpoints.Worker.Run: follows the sequential worker up to the first poll call that fails and that it survives; what comes after is in `Protocol`, with `ReachableLine` and `TornIff` about it.
- Endpoints.Session: an arrival waits in a list until the server's turn, where in `Protocol` a message waits on the sender's side for a receive; nor does it cover a server whose own post or poll fails, which `Serve` and `Protocol` do.
