# Verified models of the io_uring event loops

The repository serves sockets and files through io_uring: a program queues operations, the kernel carries
them out in its own time, and an event loop reacts to each completion by queuing the next operations. What
makes such loops right is never visible in one function. A buffer must be with the kernel, with one read,
with one write, or on its way back; an index must not be reused while a completion for its old owner is on
its way; a map must know exactly what will come back. This project models the loops together with a kernel
that may complete operations in any order with any result the interface allows, and proves what every run
keeps.

Each protocol has the same shape. A state holds the server's own data and the ring (queued entries,
operations in flight, completions not yet handled). `Enabled` and `Apply` give the steps of every actor,
`Run` is any finite interleaving of them, an invariant is shown to survive each step, and the theorems are
read off it for all runs. Beside the state machine a class has the form of the source: fields updated in
place, the loops of the program as `while` and `for` loops, each method proved to do what the state machine's
functions say. What the kernel does in between is passed to these methods. Whatever the outermost loop does is
proved to be a run of the state machine, so the theorems about runs are theorems about it.

- `Streams`, `Kernel`, `Echo`: the byte streams of a connection with a log of its messages, the kernel's
  operations on streams and memory, and the part of the echo argument that is the same for every server.
  `Faithful` says that what went back is, message by message, a contiguous and duplicate-free prefix of what
  came in.
- `Census`, `Bags`, `Masks`: counting by key, elements of several queues, masking of counters.
- `Sessions`: the completions of one connection as a history, from the accept that hands out the descriptor to
  the close, and what may follow what; shared by the two Go servers.
- `PartialSend`, `TokenMachine`, `TokenInvariant`, `TokenTheorems`, `TokenReplies`, `TokenBuffers`, `TokenTurns`,
  `TokenLoss`, `TokenRuns`, `TokenServer`: the Rust server with its slab of tokens, buffer pool, backlog and
  partial sends. When `sync` publishes entries and notices freed slots is left open, so the theorems hold for
  every schedule of it.
- `ProvidedBuffers`, `ProvidedInvariant`, `ProvidedSteps`, `ProvidedTheorems`, `ProvidedRuns`, `ProvidedReuse`,
  `ProvidedServer`: the C server whose 4096 buffers circulate between the kernel's pool, reads, writes and
  re-provides.
- `Coroutine`, `CoroutineTwin`, `CoroutineServer`: the C++ coroutine version of that server.
- `SharedRecord`, `SharedRecordProof`, `SharedRecordRuns`, `SharedRecordServer`: the C server that keeps one
  mutable record per descriptor and reads its tag from there when an operation completes.
- `MultiRing`, `MultiRingProof`, `MultiRingEcho`, `MultiRingSessions`, `MultiRingRoom`, `MultiRingRuns`,
  `MultiRingServer`: the Go server with several rings, one listener and one table of buffers.
- `EventFd`, `EventFdJobs`, `EventFdInvariant`, `EventFdRefines`, `EventFdTheorems`, `EventFdReplies`,
  `EventFdSessions`, `EventFdRuns`, `EventFdServer`: the Go server with a subscriber, worker channels, a submit
  lock and a map of event objects on a heap that is garbage collected.
- `Blocks`, `FileBatch`, `FileBatchProof`, `FileBatchTheorems`, `FileBatchPacing`, `FileBatchLoop`: the batching
  file wrapper.
- `IndexRing`, `RingActors`: the head/tail/mask ring under all of these.

Where a property the code aims at does not hold of it, the code is modelled as it is, an input or a run that
breaks the property is given, and the exact condition under which it holds is proved:

- partial sends of the Rust server: the whole message goes back exactly when the first short send is followed
  by a full one (`PartialSend.CompleteExactly`, `PartialSend.TwoShortSendsLoseAByte`); a run from the start in
  which four bytes come in and three go back is given (`TokenRuns.TwoShortSendsLoseAByte`);
- short sends of the four other servers: each message is sent at most once, so everything comes back exactly
  when every message met one full send (the four theorems named `EchoTheorem`); in each server a run in which
  two bytes come in and one goes back, and the server reads on, is given (the four lemmas named
  `ShortSendLosesAByte`);
- the ignored push: a backlog entry is lost exactly when the queue was full of entries the kernel took none
  of (`TokenTheorems.LostExactly`); a run from the start loses one when 4097 connections become readable at
  once (`TokenLoss.EntryLost`);
- the exits of the provided-buffer server: up to 4096 connections it leaves exactly when it handles a failed
  provide (`ProvidedTheorems.ExitsExactly`), and never if none fails (`ProvidedTheorems.NeverExits`); a run into
  the exit is given for a failed provide (`ProvidedRuns.FailedProvideEnds`) and for 4097 connections
  (`ProvidedTheorems.OneTooMany`);
- buffer ids: one place each exactly as long as read completions carry the selected id
  (`ProvidedTheorems.OnePlaceExactly`); with one completion that does not, a run puts buffer 0 in two places and
  sends the bytes of one connection to another (`ProvidedReuse.MissingIdSpoilsEcho`);
- the coroutine twin: same operations exactly unless a read fails (`CoroutineTwin.SameOperations`,
  `CoroutineTwin.PartExactlyOnNegativeRead`); a first read that fails is enough (`CoroutineTwin.FirstReadFails`);
- the record table: the server stays inside it exactly unless the completion at hand is an accept that failed or
  returned a descriptor beyond it (`SharedRecordProof.RecordAlwaysTag`), as the first accept may
  (`SharedRecordRuns.FailedAcceptLeavesTable`);
- the shared buffer table: every goroutine replaces it as it starts. A connection is echoed faithfully if no
  ring starts while a read of that connection is under way (`MultiRingEcho.EchoTheorem`). In any other run it
  depends on the bytes: the answer keeps the stream faithful exactly when the table at hand when the read is
  handled holds what was received (`MultiRingEcho.EchoExactly`), and a run in which it does not is given
  (`MultiRingRuns.StartDuringReadSpoilsEcho`);
- file reads: the callback gets the contents, whatever memory held before, exactly after a full read
  (`FileBatchTheorems.ReadContents`); two events lead to a callback that gets something else
  (`FileBatchTheorems.ShortReadSpoils`);
- popping: the loop ends exactly when it does not meet EAGAIN (`FileBatchProof.EndsExactly`); two events lead
  to a loop that spins (`FileBatchTheorems.EagainSpins`);
- refused batches: the wrapper panics exactly on a push onto a full ring (`FileBatchTheorems.PanicsExactly`),
  and seventeen requests lead there if no batch is accepted (`FileBatchTheorems.RefusedBatchesPanic`).

Assumptions about the surroundings: queued entries are taken in order; accept returns a descriptor that is
not in use and, in the two Go servers, fits their tables; a transfer is no longer than requested; steps are
sequentially consistent; in the provided-buffer server a read completion carries its selected id and, apart
from failed provides, only a read without a buffer reports ENOBUFS; the zero length this server passes with
buffer selection means the whole buffer; in the eventfd server submits succeed, and an address is reused only
after nothing can reach its object; the file wrapper's wait for completions is not interrupted.

## Model

| member | source | states |
|---|---|---|
| Streams.EchoedInFull | netpoll/echo/rust-iouring-server/src/main.rs:176-230 | a faithful log is echoed in full if and only if every single message of it went back whole |
| Streams.FullSendsExactly | netpoll/echo/c-iouring-server/io_uring_echo_server_v1.c:241-288 | in a faithful stream whose messages were sent at most once, everything came back if and only if each message met one send of its whole length |
| Streams.SendExactly | netpoll/echo/golang-multi-iouring-server/main.go:212-254 | sending any bytes for an unsent message leaves the stream faithful if and only if it was and the bytes begin the message |
| Streams.SendKeepsFaithful | netpoll/echo/rust-iouring-server/src/main.rs:198-230 | sending the bytes that follow those already sent of the last message keeps "what went back is a prefix, message by message" |
| Echo.ExecKeepsEcho | netpoll/echo/c-iouring-server/io_uring_echo_server_v1.c:308-334 | any kernel operation, provided a send covers only an unsent message its buffer holds, keeps every connection's stream faithful with at most one send per message, and a receive leaves its message in the buffer it used |
| Echo.SendEchoesExactly | netpoll/echo/golang-multi-iouring-server/main.go:212-254 | whatever the memory holds, a send from the start of a buffer leaves its stream faithful if and only if it was and the buffer begins with the bytes of the message |
| PartialSend.WindowIsNextSlice | netpoll/echo/rust-iouring-server/src/main.rs:205-224 | for every sequence of results no larger than requested, the next request starts exactly where the bytes sent so far end, is not empty and stays inside the message |
| PartialSend.LenShrinks | netpoll/echo/rust-iouring-server/src/main.rs:214-224 | every result that is neither zero nor final strictly shrinks the requested length |
| PartialSend.StuckShort | netpoll/echo/rust-iouring-server/src/main.rs:205-224 | once a request ends before the end of the message, no later sequence of results can complete the message |
| PartialSend.CompleteExactly | netpoll/echo/rust-iouring-server/src/main.rs:205-224 | a finished message was sent in full if and only if its first nonzero short send, if any, was followed at once by a full one |
| PartialSend.TwoShortSendsLoseAByte | netpoll/echo/rust-iouring-server/src/main.rs:206-216 | four bytes sent as one and two count as finished although the last byte never went out |
| TokenRuns.TwoShortSendsLoseAByte | netpoll/echo/rust-iouring-server/src/main.rs:110-237 | a run of the server from the start in which four bytes come in, sends of one and two bytes go out, and the token polls again with the buffer back in the pool |
| PartialSend.RestNeverLoses | netpoll/echo/rust-iouring-server/src/main.rs:206-216 | with the remaining count used throughout, a message would be finished exactly when all of it has been sent, for every sequence of results |
| TokenTheorems.StepKeeps | netpoll/echo/rust-iouring-server/src/main.rs:81-237 | every step of server or kernel keeps the whole invariant on tokens, buffers, descriptors and data, and handling a completion never indexes out of range |
| TokenTheorems.RunKeeps | netpoll/echo/rust-iouring-server/src/main.rs:81-237 | the invariant survives every run, whatever the order of completions, submits and syncs |
| TokenTheorems.OneOperationPerToken | netpoll/echo/rust-iouring-server/src/main.rs:110-237 | each connection token has exactly one operation among queue, backlog, kernel, completions and lost ones, of the kind the token says; none refers to a free slab index, so a reused index never gets a stale completion; accept budget plus accepts under way or failed is always three |
| TokenTheorems.NoneLost | netpoll/echo/rust-iouring-server/src/main.rs:90-106 | while no entry was dropped and no operation failed, every connection has its one operation queued, in flight or completed |
| TokenTheorems.QueueFits | netpoll/echo/rust-iouring-server/src/main.rs:44-55 | queued entries and freed slots not yet noticed never exceed the 4096 slots, in any run |
| TokenTheorems.LostExactly | netpoll/echo/rust-iouring-server/src/main.rs:90-106 | after a submit and a sync the backlog entry is lost if and only if the queue was full and the kernel took nothing; otherwise it is queued last |
| TokenLoss.EntryLost | netpoll/echo/rust-iouring-server/src/main.rs:79-237 | a run from the start, in the order of the main loop, in which the read of the 4097th connection is dropped although no operation of a connection failed |
| TokenTheorems.BuffersOwned | netpoll/echo/rust-iouring-server/src/main.rs:143-210 | each buffer is pooled once and held by no token, or not pooled and held by exactly one, also after errors; no operation uses a pooled buffer and no two use the same |
| TokenTheorems.DescriptorsOwned | netpoll/echo/rust-iouring-server/src/main.rs:125-175 | open descriptors are exactly those of tokens and of accepts not yet handled, each held once |
| TokenTheorems.ClosesOnRemoval | netpoll/echo/rust-iouring-server/src/main.rs:166-175 | a completion closes a descriptor exactly when it removes a token, and it is the open descriptor of that token |
| TokenReplies.CompletionAnswered | netpoll/echo/rust-iouring-server/src/main.rs:110-237 | in every run a completion adds at most one entry, the one that follows its operation (poll after accept, read of 2048 bytes after poll, send of the bytes read, the rest after a short send, poll after the end); it goes to the end of the queue, or to the end of the backlog if the 4096 slots are taken; a poll takes the buffer pooled last, or allocates one of 2048 zeros if and only if none is pooled; the end of a message or of a connection pools its buffer, and nothing else touches pool or backlog |
| TokenBuffers.BuffersAddUp | netpoll/echo/rust-iouring-server/src/main.rs:143-210 | buffers allocated are as many as are pooled and tokens that hold one |
| TokenBuffers.BuffersArePeak | netpoll/echo/rust-iouring-server/src/main.rs:143-152 | in every run the number of buffers allocated is exactly the largest number of tokens that held one at the same time |
| TokenBuffers.BuffersPerConnection | netpoll/echo/rust-iouring-server/src/main.rs:143-210 | a run in which never more than n connections are open allocates at most n buffers, so a connection served alone uses one |
| TokenTurns.CleanedEnds | netpoll/echo/rust-iouring-server/src/main.rs:90-106 | the backlog loop ends with the backlog empty and everything published, or at a busy submit with the 4096 slots taken; only the oldest entries leave the backlog |
| TokenTurns.ObligingLosesNone | netpoll/echo/rust-iouring-server/src/main.rs:90-106 | while the kernel takes something whenever it is asked and had something to take, the backlog loop loses nothing, for every backlog and every sequence of submit results |
| TokenTheorems.SettledEcho | netpoll/echo/rust-iouring-server/src/main.rs:198-230 | a connection whose messages are all finished has everything back if and only if every message met the exact condition on its short sends |
| TokenTheorems.EchoTheorem | netpoll/echo/rust-iouring-server/src/main.rs:110-237 | in every run, every connection's stream is faithful whatever the others do; a connection waiting to poll or read, or closed, has everything back exactly under that condition |
| TokenInvariant.NeverPanics | netpoll/echo/rust-iouring-server/src/main.rs:123-218 | in every state of the invariant the slab lookup and every buffer access of the completion at hand are in range |
| TokenServer.EchoServer.PushAccepts | netpoll/echo/rust-iouring-server/src/main.rs:44-55 | the loop queues accepts at the end until the budget is spent or the queue is full, spends one unit of budget for each, then publishes all, and changes nothing else |
| TokenServer.EchoServer.CleanBacklog | netpoll/echo/rust-iouring-server/src/main.rs:90-106 | for every sequence of submit results the loop leaves exactly the state the rounds of `TokenTurns.Cleaned` lead to: backlog entries move to the queue oldest first and nothing is reordered or lost, unless it reports that a submit freed no slot; then exactly what is missing is accounted for as dropped |
| TokenServer.EchoServer.Submit | netpoll/echo/rust-iouring-server/src/main.rs:82-96 | the kernel takes published entries in order and only those, as many as it says or all there are, leaving the line of entries as it was |
| TokenServer.EchoServer.PopFront | netpoll/echo/rust-iouring-server/src/main.rs:100-104 | the entry is lost if and only if the queue is full, and queue plus dropped entries are conserved |
| TokenServer.EchoServer.HandleCompletion | netpoll/echo/rust-iouring-server/src/main.rs:110-237 | one completion never panics and leaves the state whose queue, backlog and pool `TokenReplies.CompletionAnswered` describes, starting and ending in a state some run leads to |
| TokenServer.EchoServer.WriteArm | netpoll/echo/rust-iouring-server/src/main.rs:198-236 | the arm that continues or ends a send updates token, pool and queue as specified |
| TokenServer.EchoServer.HandleAll | netpoll/echo/rust-iouring-server/src/main.rs:110-237 | the completion loop empties the completion queue; the entries added are those that follow the completions, in completion order, the first of them at the end of the queue as far as there is room and the rest at the end of the backlog; it drops nothing |
| TokenServer.EchoServer.Serve | netpoll/echo/rust-iouring-server/src/main.rs:79-237 | any number of turns of the outer loop, with any kernel activity in between, is a chain of turns, each of them kernel activity, backlog, accepts and all completions in this order, and a run of the state machine, so all theorems about runs hold of it; entries are dropped if and only if in some turn the backlog loop found the queue full after a submit and a sync |
| ProvidedInvariant.Tally | netpoll/echo/c-iouring-server/io_uring_echo_server.c:127-182 | the two balances behind the bounds: buffers add up to 4096 over pool, queue, flight and completions, and operations add up to the open connections |
| ProvidedInvariant.PoolNeverEmpty | netpoll/echo/c-iouring-server/io_uring_echo_server.c:140-179 | when a read in flight has no buffer yet and no failed provide is on its way to the server, the pool has one, because each re-provide precedes the read that depends on it |
| ProvidedInvariant.QueueBound | netpoll/echo/c-iouring-server/io_uring_echo_server.c:87-182 | with n connections the submission queue never holds more than 2n + 1 entries |
| ProvidedTheorems.StepKeeps | netpoll/echo/c-iouring-server/io_uring_echo_server.c:127-182 | every step of server or kernel, refused provides included, keeps tags, places, operations, pacing and data, with at most n connections open; no read finds the pool empty unless a provide has failed |
| ProvidedTheorems.NeverExits | netpoll/echo/c-iouring-server/io_uring_echo_server.c:140-151 | with at most 4096 connections, and unless a provide failed, no run reaches the exit, every read finds a buffer and no completion reports ENOBUFS; in every run two more entries always fit the 10240-entry queue |
| ProvidedTheorems.ExitsExactly | netpoll/echo/c-iouring-server/io_uring_echo_server.c:140-151 | with at most 4096 connections, in every run, an event makes the server leave if and only if it is the handling of a failed provide |
| ProvidedRuns.FailedProvideEnds | netpoll/echo/c-iouring-server/io_uring_echo_server.c:147-151 | a run with one connection in which the re-provide fails and the server leaves |
| ProvidedTheorems.OnePlaceOneOperation | netpoll/echo/c-iouring-server/io_uring_echo_server.c:162-179 | every buffer id is in exactly one place, every open connection has exactly one operation, and there is exactly one accept |
| ProvidedTheorems.EchoTheorem | netpoll/echo/c-iouring-server/io_uring_echo_server.c:162-179 | every stream is faithful in every run, each message is sent at most once, and everything came back if and only if every message met one full send |
| ProvidedTheorems.CompletionAnswered | netpoll/echo/c-iouring-server/io_uring_echo_server.c:134-180 | in every run with at most 4096 connections a completion that is no failed provide queues what follows its operation, at the end and in order (read and accept, write, provide and read, or provide alone), and closes the connection if and only if a read brought nothing |
| ProvidedTheorems.RoomToRead | netpoll/echo/c-iouring-server/io_uring_echo_server.c:38-38 | in every run a read that holds a buffer is on an open connection, holds one of the 4096 buffers, and may deliver any number of bytes up to 2048 and no more |
| ProvidedRuns.ShortSendLosesAByte | netpoll/echo/c-iouring-server/io_uring_echo_server.c:162-179 | a run in which two bytes come in, one goes back, and the buffer is given back and the next read queued |
| ProvidedTheorems.OnePlaceExactly | netpoll/echo/c-iouring-server/io_uring_echo_server.c:162-167 | after a read completes with any result and flags, every id still has one place if and only if the flags carry the id that was selected, or none was selected and the result says so |
| ProvidedReuse.MissingIdSpoilsEcho | netpoll/echo/c-iouring-server/io_uring_echo_server.c:162-179 | a run with three connections in which one read completes with result 0 and without its id: buffer 0 is provided while its write is in flight, another read gets it, id 0 has two places, and the connection that sent 7 and 8 gets 9 and 9 |
| ProvidedTheorems.OneTooMany | netpoll/echo/c-iouring-server/io_uring_echo_server.c:140-145 | for every bound above 4096 connections there is a run into the exit |
| ProvidedServer.EchoServer.HandleCqe | netpoll/echo/c-iouring-server/io_uring_echo_server.c:134-180 | the loop body queues, closes or exits as the reaction to the completion's tag, result and flags prescribes |
| ProvidedServer.EchoServer.HandleBatch | netpoll/echo/c-iouring-server/io_uring_echo_server.c:128-183 | a batch handles the completions present, in order, up to a failed provide, at which the server leaves, and ends in exactly the state of these steps; without one it handles and counts all of them and does not leave; it never finds the submission queue full |
| ProvidedServer.EchoServer.Serve | netpoll/echo/c-iouring-server/io_uring_echo_server.c:123-183 | the event loop ends in exactly the state of its turns, each of them kernel activity and then one batch, and is a run of the state machine; it ends early only at a failed provide |
| CoroutineTwin.LookupSucceeds | netpoll/echo/cpp-coroutine-iouring-server/coroutine_io_uring_echo_server.cpp:295-304 | a deliverable completion finds its suspended coroutine in the map |
| CoroutineTwin.StepInStep | netpoll/echo/cpp-coroutine-iouring-server/coroutine_io_uring_echo_server.cpp:262-305 | one completion, unless a negative read, keeps both servers in step: same operations so far, each coroutine suspended in its connection's open operation |
| CoroutineTwin.SameOperations | netpoll/echo/cpp-coroutine-iouring-server/coroutine_io_uring_echo_server.cpp:88-170 | for every completion trace without negative reads both servers emit the same operations, descriptors, ids and sizes in the same order, and shut down what the other closes |
| CoroutineTwin.EntriesFit | netpoll/echo/cpp-coroutine-iouring-server/coroutine_io_uring_echo_server.cpp:214-308 | with n connections a batch makes the coroutine server queue at most 2n + 2 entries, so up to 2047 connections its 4096-entry ring always has one to give |
| CoroutineTwin.PartExactlyOnNegativeRead | netpoll/echo/cpp-coroutine-iouring-server/coroutine_io_uring_echo_server.cpp:158-170 | from servers in step, a completion leads to the same operations if and only if it is not a negative read |
| CoroutineTwin.FirstReadFails | netpoll/echo/cpp-coroutine-iouring-server/coroutine_io_uring_echo_server.cpp:158-170 | for every listener and descriptor, the trace of two completions on which the two servers part |
| CoroutineServer.EchoServer.EchoRead | netpoll/echo/cpp-coroutine-iouring-server/coroutine_io_uring_echo_server.cpp:88-111 | suspending in a read queues the entry tagged from the promise and records the type in it |
| CoroutineServer.EchoServer.EchoWrite | netpoll/echo/cpp-coroutine-iouring-server/coroutine_io_uring_echo_server.cpp:113-133 | suspending in a write queues a send from the promise's buffer id |
| CoroutineServer.EchoServer.EchoAddBuffer | netpoll/echo/cpp-coroutine-iouring-server/coroutine_io_uring_echo_server.cpp:135-154 | giving a buffer back queues a provide for the promise's id |
| CoroutineServer.EchoServer.ResumeTask | netpoll/echo/cpp-coroutine-iouring-server/coroutine_io_uring_echo_server.cpp:158-170 | resuming runs the coroutine to its next suspension or to its end |
| CoroutineServer.EchoServer.HandleCqe | netpoll/echo/cpp-coroutine-iouring-server/coroutine_io_uring_echo_server.cpp:262-305 | one completion creates, resumes or removes a coroutine as specified |
| CoroutineServer.EchoServer.Serve | netpoll/echo/cpp-coroutine-iouring-server/coroutine_io_uring_echo_server.cpp:252-308 | the loop emits exactly the operations of the explicit loop, for every trace |
| SharedRecordProof.RecordIsTag | netpoll/echo/c-iouring-server/io_uring_echo_server_v1.c:241-288 | the record read when an operation completes is the tag written when it was queued, and handling it stays inside the table if and only if it is no accept that failed or returned a descriptor beyond the table |
| SharedRecordProof.SameRuns | netpoll/echo/c-iouring-server/io_uring_echo_server_v1.c:230-290 | the shared-record server and a server carrying tags by value have exactly the same runs |
| SharedRecordProof.RecordAlwaysTag | netpoll/echo/c-iouring-server/io_uring_echo_server_v1.c:293-334 | in every reachable state, failed accepts included, every entry, operation and completion finds its own tag in its record, and the next step stays inside the table if and only if it handles no failed or oversized accept |
| SharedRecordProof.EchoTheorem | netpoll/echo/c-iouring-server/io_uring_echo_server_v1.c:241-288 | a descriptor's buffer is untouched from the completed read to the end of the write; streams are faithful, each message is sent at most once, and everything came back if and only if every message met one full send |
| SharedRecordProof.CompletionAnswered | netpoll/echo/c-iouring-server/io_uring_echo_server_v1.c:241-288 | in every run a completion queues what follows its operation, at the end and in order (accept and read, write, or read), writes the records of these entries, and closes the connection if and only if a read brought nothing |
| SharedRecordProof.OneOperationOneAccept | netpoll/echo/c-iouring-server/io_uring_echo_server_v1.c:241-288 | in every run each open connection has exactly one operation, no other descriptor has any, and there is exactly one accept |
| SharedRecordRuns.ShortSendLosesAByte | netpoll/echo/c-iouring-server/io_uring_echo_server_v1.c:241-288 | a run in which two bytes come in, one goes back, and the next read is queued |
| SharedRecordRuns.FailedAcceptLeavesTable | netpoll/echo/c-iouring-server/io_uring_echo_server_v1.c:246-268 | for every configuration, a run of two steps after which the next completion makes the server leave its record table |
| SharedRecordServer.EchoServer.AddEntry | netpoll/echo/c-iouring-server/io_uring_echo_server_v1.c:293-334 | queuing overwrites the descriptor's record in place and points the entry to it |
| SharedRecordServer.EchoServer.HandleNext | netpoll/echo/c-iouring-server/io_uring_echo_server_v1.c:242-288 | one completion acts on the record as it is now, as specified |
| SharedRecordServer.EchoServer.HandleBatch | netpoll/echo/c-iouring-server/io_uring_echo_server_v1.c:240-289 | a batch takes the oldest completions, at most the size of the batch array, in order, and ends in exactly the state of these steps; it stops early only at an accept that failed or does not fit the table, and reports it |
| SharedRecordServer.EchoServer.Serve | netpoll/echo/c-iouring-server/io_uring_echo_server_v1.c:228-290 | the event loop ends in exactly the state of its turns, each of them kernel activity and then one batch, and is a run of the state machine, so its records are always the tags; it reports the accept it could not index by |
| MultiRingProof.StepKeeps | netpoll/echo/golang-multi-iouring-server/main.go:159-262 | every step of any goroutine or the kernel keeps the maps, the events and one operation per connection, and no completion is unknown |
| MultiRingProof.RingsKeepApart | netpoll/echo/golang-multi-iouring-server/main.go:169-262 | in every interleaving each completion finds its own event, each ring's map holds exactly its queued, flying and unhandled operations, and an open connection has at most one operation over all rings |
| MultiRingProof.AlwaysKnown | netpoll/echo/golang-multi-iouring-server/main.go:185-189 | the exit for an event that is not in the map is unreachable |
| MultiRingProof.NoSharedBuffer | netpoll/echo/golang-multi-iouring-server/main.go:291-322 | two reads or writes in flight, on any rings, never use the same descriptor's buffer |
| MultiRingEcho.EchoTheorem | netpoll/echo/golang-multi-iouring-server/main.go:169-262 | for every connection during whose reads no ring starts, whatever happens to the others: its stream is faithful, each message is sent at most once, and everything came back if and only if every message met one full send |
| MultiRingEcho.EchoExactly | netpoll/echo/golang-multi-iouring-server/main.go:159-262 | in every run, a completed read is handled and its answer sent, with anything in between; afterwards the stream is faithful if and only if it was before and the table at hand when the read was handled holds the bytes received, as far as they were sent |
| MultiRingSessions.SessionTheorem | netpoll/echo/golang-multi-iouring-server/main.go:185-262 | in every interleaving and for every descriptor: its completions are an orderly history, accept, read, write, read and so on; it is open exactly from the accept to the close; while open it has no operation that keeps it going if and only if its last read reported 9 (EBADF) or its close failed, and otherwise exactly one over all rings, the one that follows the last completion |
| MultiRingSessions.CompletionAnswered | netpoll/echo/golang-multi-iouring-server/main.go:185-262 | in every interleaving a completion makes its own ring, and no other, queue what follows its operation, at the end and in order, and removes its own event from the map |
| MultiRingSessions.OneAcceptPerRing | netpoll/echo/golang-multi-iouring-server/main.go:169-212 | in every interleaving each ring that has started has exactly one accept under way, or exactly one that failed |
| MultiRingRoom.RoomToRead | netpoll/echo/golang-multi-iouring-server/main.go:54-60 | in every interleaving a read on an open connection may deliver any number of bytes up to 2048 and no more, and they go to the front of the connection's own buffer in one of the tables made so far |
| MultiRingRuns.StartDuringReadSpoilsEcho | netpoll/echo/golang-multi-iouring-server/main.go:159-167 | a run of two rings in which byte 1 is received and byte 0 goes back |
| MultiRingRuns.ShortSendLosesAByte | netpoll/echo/golang-multi-iouring-server/main.go:212-254 | a run in which two bytes come in, one goes back, and the next read is queued |
| MultiRingServer.EchoServer.ProduceSqe | netpoll/echo/golang-multi-iouring-server/main.go:277-335 | producing appends the entry and registers its event under the same address |
| MultiRingServer.EchoServer.StartRing | netpoll/echo/golang-multi-iouring-server/main.go:159-167 | a starting goroutine replaces the table of buffers and queues the first accept |
| MultiRingServer.EchoServer.HandleCqe | netpoll/echo/golang-multi-iouring-server/main.go:185-260 | one completion is always found in the map and handled as specified |
| MultiRingServer.EchoServer.Serve | netpoll/echo/golang-multi-iouring-server/main.go:159-262 | any interleaving is a run of the state machine that ends in exactly the state of its steps, and no goroutine ever leaves its loop |
| EventFdJobs.CompleteKeeps | netpoll/echo/golang-epoll-eventfd-iouring-server/main.go:133-172 | replacing an operation by its event keeps one job per connection, waiting messages and faithful streams |
| EventFdJobs.ReactKeeps | netpoll/echo/golang-epoll-eventfd-iouring-server/main.go:133-172 | replacing an event by what its callback submits keeps them as well |
| EventFdInvariant.PeekFinds | netpoll/echo/golang-epoll-eventfd-iouring-server/main.go:338-358 | the completion at the head finds the object made for its own operation, and its result goes into that object |
| EventFdInvariant.AddressElsewhere | netpoll/echo/golang-epoll-eventfd-iouring-server/main.go:464-470 | no other operation under way has the same address, although addresses are reused |
| EventFdInvariant.StepKeeps | netpoll/echo/golang-epoll-eventfd-iouring-server/main.go:323-479 | every step between two points where another actor may run keeps map, heap, hand and order |
| EventFdRefines.StepRefines | netpoll/echo/golang-epoll-eventfd-iouring-server/main.go:323-479 | locks, map, heap and channels refine a bag of jobs: a completion and a callback are its two steps, and every other step leaves bag and connections unchanged |
| EventFdTheorems.OwnEvent | netpoll/echo/golang-epoll-eventfd-iouring-server/main.go:338-358 | under every interleaving no completion is without its event, each leads to the object of its own operation, and the map's keys are exactly the addresses that will come back, each once |
| EventFdTheorems.InOrder | netpoll/echo/golang-epoll-eventfd-iouring-server/main.go:360-394 | what a thread has run is an initial part of its share of the completions, in completion order, each with its own result; the share is by the descriptor of the operation that completed |
| EventFdTheorems.OwnThread | netpoll/echo/golang-epoll-eventfd-iouring-server/main.go:360-394 | every callback a thread has run was for a posted completion, and the thread is the one the operation's descriptor selects: the listener for an accept, the connection otherwise, modulo the number of workers, or the subscriber without workers |
| EventFdTheorems.CompletionOrder | netpoll/echo/golang-epoll-eventfd-iouring-server/main.go:376-394 | for every descriptor and thread: the thread the descriptor selects has run the callbacks of the first of the completions of operations on that descriptor, in the order they completed; no other thread has run any of them |
| EventFdTheorems.EachCallbackOnce | netpoll/echo/golang-epoll-eventfd-iouring-server/main.go:356-394 | callbacks run, events in channels, the event in hand and unhandled completions are together exactly the posted completions, so none is run twice or lost |
| EventFdTheorems.NoSharedBuffer | netpoll/echo/golang-epoll-eventfd-iouring-server/main.go:412-446 | two operations in flight belong to different open descriptors, so never to one buffer |
| EventFdTheorems.EchoTheorem | netpoll/echo/golang-epoll-eventfd-iouring-server/main.go:133-172 | streams are faithful under every interleaving, each message is sent at most once, and everything came back if and only if every message met one full send |
| EventFdReplies.AnswersInOrder | netpoll/echo/golang-epoll-eventfd-iouring-server/main.go:133-172 | in every run what a worker or the subscriber has handed to the kernel and still owes is, operation by operation, the answers to the first of the completions its descriptors select, to as many as it has run callbacks: accept and read after an accept, send after a read, close after an empty or failed read unless it reported 9 (EBADF), read after a write |
| EventFdReplies.RoomForAll | netpoll/echo/golang-epoll-eventfd-iouring-server/main.go:376-384 | in every run a read on an open connection may deliver any number of bytes up to 2048 and no more; no channel holds more than 1024 events; the subscriber with an event for a worker waits if and only if the channel of the operation's descriptor is full |
| EventFdSessions.SessionTheorem | netpoll/echo/golang-epoll-eventfd-iouring-server/main.go:133-172 | under every interleaving and for every descriptor: its completions are an orderly history, accept, read, write, read and so on; it is open exactly from the accept to the close; while open it has no job if and only if its last read reported 9 (EBADF) or its close failed, and otherwise exactly one, the one that follows the last completion |
| EventFdSessions.OneAcceptUntilFailure | netpoll/echo/golang-epoll-eventfd-iouring-server/main.go:133-146 | under every interleaving there is exactly one accept under way, on the listener the server was started with, until an accept fails; from then on there is none, and no second one fails |
| EventFdRuns.ShortSendLosesAByte | netpoll/echo/golang-epoll-eventfd-iouring-server/main.go:133-172 | a run, both with the worker and with the subscriber running the callbacks, in which two bytes come in, one goes back, and the thread goes on to the next read |
| EventFdRuns.EndOfFileCloses | netpoll/echo/golang-epoll-eventfd-iouring-server/main.go:148-161 | a run, both with the worker and with the subscriber running the callbacks, in which a read of no bytes ends with the descriptor closed |
| EventFdServer.EchoServer.FillEntry | netpoll/echo/golang-epoll-eventfd-iouring-server/main.go:396-462 | under the lock the thread's next operation gets an entry and a fresh event object |
| EventFdServer.EchoServer.RegisterEvent | netpoll/echo/golang-epoll-eventfd-iouring-server/main.go:464-469 | the object is registered under its address before the kernel hears of the entry |
| EventFdServer.EchoServer.SubmitEntry | netpoll/echo/golang-epoll-eventfd-iouring-server/main.go:470-479 | the kernel gets the entry and the lock is free again |
| EventFdServer.EchoServer.TakeCompletion | netpoll/echo/golang-epoll-eventfd-iouring-server/main.go:325-358 | the oldest completion is looked up, unregistered and copied into its object, or skipped and counted if unknown |
| EventFdServer.EchoServer.DispatchEvent | netpoll/echo/golang-epoll-eventfd-iouring-server/main.go:376-384 | the object goes to the end of the channel its listening or connection descriptor selects; `EventFdTheorems.OwnThread` says which that is for each operation |
| EventFdServer.EchoServer.RunCallback | netpoll/echo/golang-epoll-eventfd-iouring-server/main.go:133-172 | a thread's work becomes what the callback of the event submits; `EventFdReplies.AnswersInOrder` says what that is for each completion |
| EventFdServer.EchoServer.ReceiveEvent | netpoll/echo/golang-epoll-eventfd-iouring-server/main.go:386-394 | a worker runs the callback of the first object in its channel |
| EventFdServer.EchoServer.Serve | netpoll/echo/golang-epoll-eventfd-iouring-server/main.go:323-394 | any interleaving is a run of the state machine that ends in exactly the state of its steps, keeps the whole invariant, and no completion was without its event |
| Blocks.PushLengths | iouring/liburing.c:57-90 | for every file size the loop computes the lengths of the layout: they sum to the size, none is zero, all but the last are a seventh of the size, and there are seven if that comes out even, eight if not, one for a size below seven and none for an empty file, as many as popping will count |
| Blocks.PushPopAgree | iouring/liburing.c:29-90 | for every size, the layout computed on pushing is a proper one and has exactly as many blocks as popping counts |
| Blocks.AllocateBlocks | iouring/liburing.c:70-90 | the memory for a read is cut into blocks of the pushed lengths, which together are all of it |
| Blocks.PopBlocks | iouring/liburing.c:29-39 | the recomputed number of blocks is the one of the layout: none, one, seven or eight, by the size |
| Blocks.ScatterHolds | iouring/liburing.c:96-99 | a vectored read keeps the lengths and leaves the data in order in front of what the blocks held |
| Blocks.Gather | iouring/liburing.go:83-94 | the callback's buffer is the concatenation of all blocks |
| Blocks.ReadDelivers | iouring/liburing.go:83-97 | the caller gets the bytes read, then what the fresh blocks held, as many bytes as the file has |
| Blocks.DeliversExactly | iouring/liburing.go:83-97 | for every proper layout, the caller gets the contents for every previous memory if and only if the read was a full one |
| FileBatchProof.FireOwn | iouring/liburing.go:95-109 | a successful completion finds, closes and calls back its own request, and forgets it |
| FileBatchProof.DrainExactly | iouring/liburing.go:255-274 | popping calls exactly the callbacks before the first failed completion, up to the number asked for, leaves the failed one, and spins exactly when it is stuck on EAGAIN |
| FileBatchProof.EndsExactly | iouring/liburing.go:262-273 | some number of turns ends the loop if and only if the loop is not stuck, and then in the state of the whole drain |
| FileBatchTheorems.CallbacksInOrder | iouring/liburing.go:147-207 | for all results, refused batches and completions that arrive late, up to a panic if one occurs, callbacks are called in completion order for an initial, successful part of the completions, each once with its own result, and no request disappears |
| FileBatchTheorems.ReadContents | iouring/liburing.c:15-55 | in every run, up to a panic if one occurs, a read callback gets the bytes read followed by what the blocks cut on pushing held, as many as the file has; whatever memory the blocks were cut from, these are the contents if and only if the read was a full one |
| FileBatchTheorems.ShortReadSpoils | iouring/liburing.go:83-97 | for every byte, a file of one byte and a read that returns nothing: two events after which the callback got a byte that is not the file |
| FileBatchTheorems.FailureIsFinal | iouring/liburing.c:23-26 | once a failed completion is the oldest it stays so, and no callback is ever called again |
| FileBatchTheorems.EagainSpins | iouring/liburing.go:262-273 | for every request, two events lead to a loop that spins for ever |
| FileBatchTheorems.PanicsExactly | iouring/liburing.c:96-117 | in every run an event makes the wrapper use a nil entry if and only if it is a push onto a ring all of whose 16 entries are taken |
| FileBatchTheorems.RefusedBatchesPanic | iouring/liburing.go:147-207 | a run of seventeen requests whose batches are all refused ends in such a push |
| FileBatchTheorems.AcceptedRuns | iouring/liburing.go:190-200 | with batches accepted at most five requests wait between events, so an entry is always available, nothing panics, exactly the completions before the first failure are called back, and the loop spins exactly when that failure is EAGAIN |
| FileBatchPacing.BatchesExactly | iouring/liburing.go:147-207 | in every run, refused batches and late completions included: a request that is not the sixth since the last batch is queued last and nothing else happens; the sixth, and a poll after at least one, try a batch with exactly the number of these requests; callbacks are called then and at no other time |
| FileBatchPacing.QueueSinceBatch | iouring/liburing.go:190-200 | while batches are accepted the queue holds exactly as many requests as were pushed since the last one, five at most |
| FileBatchTheorems.SmoothRuns | iouring/liburing.go:147-207 | when all goes well the map's keys are exactly the queued descriptors, every request is queued or was called back once, and after a poll none is queued and the map is empty |
| FileBatchLoop.Wrapper.PushRequest | iouring/liburing.go:152-188 | the callback is registered, then the memory of a read cut by the computed lengths and the request queued with its blocks, or the failed push reported |
| FileBatchLoop.Wrapper.PopRequest | iouring/liburing.c:15-55 | one pop returns EAGAIN, the failure, or zero after the callback, as specified |
| FileBatchLoop.Wrapper.DrainQueue | iouring/liburing.go:262-273 | the loop has the effect of the whole drain |
| FileBatchLoop.Wrapper.SubmitAndPopAll | iouring/liburing.go:255-274 | a refused batch stays queued, an accepted one is popped |
| FileBatchLoop.Wrapper.LateCompletion | iouring/liburing.c:119-121 | a completion nobody waited for joins the completion queue at its end |
| FileBatchLoop.Wrapper.Loop | iouring/liburing.go:147-207 | the goroutine's loop is a run of the state machine over exactly the events handled; it stops early only if popping spins, a push finds the ring full or an event cannot happen, and no push finds the ring full while batches are accepted |
| Masks.MaskIsRemainder | docs/rw_barrier.md:12-13 | masking with size minus one is the remainder, for every power of two |
| Masks.WrapKeepsPlace | docs/rw_barrier.md:12-17 | wrapping a counter at 32 bits does not change its slot |
| IndexRing.Ring.Submit | docs/rw_barrier.md:28-40 | with room, the queue the ring stands for grows by the entry at its end, across wrap-around |
| IndexRing.Ring.Reap | docs/rw_barrier.md:5-20 | an entry is found if and only if the queue is not empty, and it is the oldest one |
| IndexRing.FullExactly | docs/rw_barrier.md:30-32 | the slot to be filled holds an unread entry if and only if the ring is full |
| RingActors.BoundedFifo | docs/rw_barrier.md:5-40 | with both actors interleaved line by line, what was consumed is an initial part of what was produced, whole and in order, and the rest fits the ring, for every start value of the counters |
| RingActors.BothSeeExactly | docs/rw_barrier.md:5-40 | in every run, across any number of wrap-arounds, the consumer finds an entry if and only if one has been produced and not consumed, and the producer may begin if and only if fewer entries than the size have not been given back |
| RingActors.NeverReadsWhatIsFilled | docs/rw_barrier.md:8-18 | the slot being processed is whole and never the one the producer is filling |
| RingActors.ReadsOldest | docs/rw_barrier.md:12-15 | the masked head leads, through the index array, to the oldest unread entry |
| RingActors.MaskInRange | docs/rw_barrier.md:12-13 | masking any counter stays inside the ring, so no line is held up by a bound |
| RingActors.FreePlace | docs/rw_barrier.md:30-36 | with room, the producer's slot is none of those waiting to be read |

## Left out

- Socket setup, argument parsing, logging, signal handling, profiling: no property to prove.
- The insides of liburing, gouring and the Rust crates: modelled as queues and maps.
- Progress: no theorem says that a completion is eventually handled. In the eventfd server one signal handles one completion and signals may coalesce, so it is not so.
- The failed submit of the eventfd server, which leaves the entry in the ring after its event is deleted: submits are assumed to succeed.
- Hardware memory ordering: each modelled step is seen by all actors at once.
- The option of the v1 server to use registered files, its simulated workload, and the counter of closed connections in the multi-ring server: they do not touch the protocol.
- The mode in which a kernel thread polls the submission queue: only when entries are taken changes, which is left open anyway.
- The event type for which the eventfd subscriber logs an error and skips: no event of that type is ever made.
- io_uring_echo_server_v2.c and io_uring_echo_server_v3.c: the first gives buffers back under the wrong id, the second allows several reads into one buffer, so the ownership argument does not apply to them.
- goiouring_single_cqe.go, the demos, the UDP, epoll and netpoll servers, fio configurations and scripts: easy loops or copies.
- TokenServer.EchoServer.Serve: the source's loop runs for ever; it is observed for any finite number of turns.
- ProvidedServer.EchoServer.Serve: observed for any finite number of turns.
- CoroutineTwin.SameOperations: an entry is taken to be available whenever one is queued; `CoroutineTwin.EntriesFit` says up to which number of connections the ring guarantees it.
- CoroutineServer.EchoServer.Serve: observed for any finite trace of completions, without negative reads.
- SharedRecordServer.EchoServer.Serve: observed for any finite number of turns.
- MultiRingServer.EchoServer.Serve: observed for any finite interleaving.
- EventFdServer.EchoServer.Serve: observed for any finite interleaving.
- FileBatchLoop.Wrapper.DrainQueue: where the source would spin for ever the method returns with a flag set; that the spinning has no end is proved beside it.
- FileBatchLoop.Wrapper.Loop: the source's loop runs for ever; it is observed for any finite number of events.
- A ring of 2^32 entries: its counters could not tell full from empty, so sizes go up to 2^31.
- The completion ring's direct access to its slots: both rings go through the index array of the submission ring, whose entries are proved to be the index itself; that the producer finds room is assumed, as in the source, and `IndexRing.FullExactly` says what would happen otherwise.
- Negative file sizes, and files that change size while they are read: the size is taken to be that of the contents.
