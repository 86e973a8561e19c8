# A model of the message-passing stack, verified in Dafny

The program is a multi-threaded communication module. An accept thread puts each new connection
into a queue that producers enter without a lock; worker threads take turns at emptying it, register
the connections with epoll, and read messages of a 24-byte header and a payload off them; clients and
responders write such messages with retry loops; and a log module renders formats with conversions
of its own. This project models these parts and proves what they are for.

- `WorkQueue` is the queue on the real heap: `next` pointers, an intake stack, an outgoing list, and
  the drain that reverses the one onto the other in place.
- `QueueMachine` is the same queue as a machine of single memory accesses, with any number of
  producers and consumers and a heap whose freed addresses may be allocated again at any moment.
  `QueueRefinement` proves it linearizable to the FIFO of `QueueSpec`; `QueueProgress` bounds the
  retries and the relinking; `QueueCompletion` shows that no thread is ever stuck in it.
- `Framing`, `SocketLoops`, `Receiving`, `Chunks`, `ChunkedSend` and `Resuming` are the message format,
  the loops over short reads and writes (classes over byte arrays, with an arbitrary script of system
  call results as the environment), what a receive means for a stream, however it is cut up, sends in
  several parts, and what is left of a stream behind an error.
- `Rotation` and `Adopter` are the turn counter, the top of a worker's loop, and the accept thread's
  use of the queue. `Worker` is the event loop for one epoll batch, with a ledger of every allocation;
  `Batch` says what a batch comes to.
- `Server` is everything around the queue as a state machine; `Adoption`, `Ownership`, `Counting` and
  `Delivery` are its invariants; `LinkLoops` and `BatchSteps` prove that its single steps are the loops
  of the sender and of the worker, and `Service` what it gets done. `EndToEnd` runs it together with `QueueMachine`, whose compare-and-swap steps
  are interleaved with everything else, and carries the invariants over through the refinement.
- `Families` is the log module's table of error families. `Format` says what a format means as a
  whole. `Scanner`, `Stepping` and `LogPrinter` are `log_vsnprintf`; `Tokenization`, `SegmentMeaning`
  and `Formatter` prove that the two agree. `Spelling` and `Conversions` have its letters and the texts
  of its conversions written out.

## Main results

1. In every interleaving of the accept thread, the workers, the clients and every short read and
   write, the messages given to `client_func` for a connection are a prefix of the messages sent on it
   (`EndToEnd.DeliveredInOrder`).
2. The queue is linearizable to a FIFO, also in the middle of a drain and when addresses are used
   again (`QueueRefinement.Linearizable`), and no thread ever touches memory that is not allocated.
   Nothing is assumed of a producer's old copy of `queue_in`: it is only compared and stored. A thread
   that is left alone completes its operation, whatever swap it has lost (`QueueCompletion.CompletesAlone`).
3. Every accepted connection is at each moment in exactly one place, and over a whole run no two
   workers ever register the same one (`EndToEnd.ConnectionsConserved`, `EndToEnd.RegisteredForGood`).
4. What is sent is received, for every independent fragmentation of the two directions
   (`Receiving.RoundTrip`), and a message sent in chunks is on the wire what the same message sent in
   one call would be, and is received as one message, exactly when the chunks total `msg_len` and
   none is empty (`ChunkedSend.ChunkedRoundTrip`, `Delivery.ChunkedPlanIsExact`).
5. Rendering a format segment by segment, with the hand-written table for stepping over the
   arguments, is rendering the whole format (`Formatter.SegmentwiseIsWhole`). The arguments never
   drift if and only if every conversion is one the table knows and every number to be looked up is
   found (`Formatter.NeverDrifts`); the scanner finds the segments of a format if and only if no `%h`
   stands before a letter that turns it into a length modifier (`Tokenization.ScanningFinds`).

## Where the code does not do what it is for

- The stepping table is wrong for `l` before a conversion that is not an integer one (`%lf`, `%ls`,
  `%lc`), and right for every other pair: `SegmentMeaning.TableIsExact`, `Formatter.LongFloatIsUndefined`.
- A family conversion whose family has no table prints `?` and leaves its argument for the next
  conversion: `Formatter.UnregisteredFamilyDrifts`, and exactly when in `SegmentMeaning.SegmentIsExact`.
- A hard error that goes away again in the middle of a message makes the rest of that message be read
  as a header (`Resuming.ErrorsMustBePermanent`). Receiving stays aligned if and only if the error came
  between two frames: `Resuming.CutOffAligned`, `Resuming.ResumesExactly`.
- `AddFamilyError` can give out a number that already belongs to another family, and the older one
  keeps being found. It does so exactly when the number asked for, or for -1 the index of the first
  free slot, is registered before the call: `Families.AddedOrShadowed`, `Families.IndexIsTaken`.
- An empty chunk is not empty: with `msg_write_len` 0 a data call writes `msg_len` bytes. Exactly when
  this does harm is in `Chunks.WrittenIsMeant` and `ChunkedSend.ChunkedRoundTrip`.

## What the proofs rely on

- One `comm_server_init`, with at least one worker: the turn counter is global (`comm_server.c:5`).
- One sending thread per connection. Its payloads total `msg_len`, and its buffers hold what is sent.
- Lengths of a send fit `ssize_t` (`SocketLoops.CommMsg.Sendable`). Received lengths are not
  restricted: a `msg_len` of 2^63 or more is a payload of no bytes, as in the code.
- Sender and receiver have the same header layout: `msg_type` at 0, four bytes of padding,
  `msg_len` at 8, `msg_write_len` at 16, little-endian (LP64).
- In the end-to-end results, EOF and hard errors are permanent on a connection. Without that:
  `Resuming`.
- epoll reports a descriptor at most once in a batch.
- Memory is sequentially consistent: each step of `QueueMachine` is at most one access or one atomic swap.
- `malloc` for messages and entries succeeds; where the program goes on without it (the error
  message of a worker, the data buffer of a client's wait), both outcomes are modelled.
- An entry that is inserted belongs to its inserter and is in no queue.
- Connections have numbers of their own in the model, because descriptors are used again after `close`.
- `vsnprintf`, given one segment of the C library's own conversions, prints its literal and its
  conversion and looks at no argument behind its own (`SegmentMeaning.Conforms`). That such a
  function exists is `Formatter.ConformingExists`: the segments can be read in one way only.

## Model

| member | source | states |
|---|---|---|
| Framing.DecodeOfEncode | comm_i.h:92-96 | Reading the header's memory image gives back its type, length and write length, padding included. |
| Framing.EncodeOfDecode | comm_i.h:92-96 | Any 24 bytes are the image of exactly the header they are read as. |
| Framing.HeaderLayout | comm_i.h:92-96 | Byte by byte: type at 0, padding at 4, msg_len at 8, msg_write_len at 16, each little-endian, 24 bytes in all. |
| Framing.LengthRules | comm_tcp_client.c:115-119 | A sender writes msg_write_len bytes, or msg_len if that is 0, a receiver reads msg_len; lengths from 2^63 on are none. |
| Framing.ParseOfFrames | comm_tcp_client.c:325-370 | Concatenated frames decode to their messages, whatever follows them. |
| Framing.FramesOfParse | comm_tcp_client.c:325-370 | Decoding any stream loses no byte: the frames of what was decoded and the rest are the stream. |
| Framing.ParseOfPrefix | comm_server.c:684-755 | A stream cut off anywhere decodes to a prefix of the messages that were framed. |
| Framing.FramesPrefix | comm_server.c:684-755 | If the frames of one list of messages are a prefix of those of another, so is the list: frames are read in one way only. |
| SocketLoops.WriteLoopTaken | comm_tcp_client.c:88-113 | What a write loop has written is the smaller of its length and the room in the results it used; it is done exactly when all bytes are gone, and fails exactly on a hard error. |
| SocketLoops.WriteLoopMinimal | comm_tcp_client.c:88-113 | A write loop asks the kernel for nothing after it is done or has failed. |
| SocketLoops.SendMeaning | comm_tcp_client.c:81-154 | Header and payload loops together: all 24 + n bytes exactly on success, a hard error exactly on failure. |
| SocketLoops.Endpoint.WriteLoop | comm_server.c:24-58 | The stream gains exactly the first bytes of the buffer, as many as were taken; the pointer is advanced lazily and every request is non-empty and inside the buffer. |
| SocketLoops.Endpoint.Send | comm_tcp_client.c:64-155 | For any results of write the stream gains a prefix of header and payload. 24 plus the payload length is returned if and only if all of it was taken, -1 if and only if a hard error was met, and otherwise the call is still looping. comm_unix_client_send and the two servresp_send functions are the same loops. |
| SocketLoops.Endpoint.SendHeader | comm_tcp_client.c:157-211 | The same for the header alone, with 24. |
| SocketLoops.Endpoint.SendData | comm_tcp_client.c:213-270 | The same for msg_write_len, or if that is 0 msg_len, bytes of data, with their number. |
| SocketLoops.Endpoint.ReadLoop | comm_tcp_client.c:289-323 | The buffer is filled with exactly the next bytes of the stream and no byte more is taken; otherwise EOF or the hard error that came first is reported. |
| SocketLoops.Endpoint.Wait | comm_unix_client.c:151-253 | The call ends as one receive does. Header and payload land in the message byte for byte and exactly 24 + msg_len bytes are consumed. It returns 24 plus the payload length on a whole frame; without one it returns -2 if and only if EOF comes, -1 if and only if a hard error comes, and loops if neither does; -1 also if malloc fails where it is needed. comm_tcp_client_wait is the same. |
| Receiving.FeedConsumes | comm_server.c:653-755 | One read result: no byte lost, duplicated or reordered, and a message that is not complete never asks for zero bytes. |
| Receiving.ReceiveMeaning | comm_tcp_client.c:289-372 | The outcome of a receive depends on the bytes alone, never on how reads and interruptions cut them up. |
| Receiving.SendAllMeaning | comm_unix_client.c:76-148 | Sending a list of messages puts a prefix of their frames on the stream, and all of them if every send succeeds. |
| Receiving.ReceiveManyFrames | comm_unix_client.c:169-252 | Waiting repeatedly on a stream of frames returns their messages, in order. |
| Receiving.RoundTrip | comm_unix_client.c:59-253 | Send all, then wait as often: the same list comes back, for every pair of write and read scripts that carry it. |
| Chunks.WrittenIsMeant | comm_tcp_client.c:231-240 | A data call writes msg_write_len bytes of its buffer, or msg_len if that is 0; so a sequence of calls writes the chunks it was meant to if and only if none of them is empty, or there is no payload. |
| ChunkedSend.SendInChunks | comm_tcp_client.c:157-270 | send_header and then send_data for each part, on the classes, put on the stream and use up exactly what the specification SendChunks says, failures included. |
| ChunkedSend.ChunkedRoundTrip | comm_tcp_client.c:157-270 | After a chunked send that went through, under any short writes and reads, one receive returns one message with the concatenation of the chunks and has taken exactly what was sent, if and only if the chunks total msg_len and none of them is empty (unless there is no payload). |
| Receiving.OneReceive | comm_tcp_client.c:289-372 | Iterating the receive step gives the verdict that Wait and HandleReadable are held to in their own contracts. |
| Resuming.ErrorsMustBePermanent | comm_server.c:667-678 | An input for it: a hard error that does not last, in front of a payload that looks like a header, makes up a message nobody sent. |
| Resuming.CutOffAligned | comm_server.c:667-678 | A receive that was cut off has left the stream of any messages on a frame boundary if and only if it had not taken a single byte. |
| Resuming.ResumesInOrder | comm_server.c:658-678 | After a cut-off receive that had taken nothing, the next receives return the messages that follow, in order. |
| Resuming.ResumesExactly | comm_server.c:658-755 | Receiving up to an error anywhere in the stream of any messages, and then going on: the rest brings exactly the messages not received yet if and only if the error came between two frames. |
| WorkQueue.Queue.constructor | comm_work_queue.c:3-12 | A new queue is empty. |
| WorkQueue.Queue.Insert | comm_work_queue.c:14-25 | The entry comes last, everything else stays as it was. |
| WorkQueue.Queue.Drain | comm_work_queue.c:35-40 | The stolen list is turned into its exact reverse on queue_out, on its own nodes, changing nothing but their next fields. |
| WorkQueue.Queue.Refill | comm_work_queue.c:31-44 | Stealing and draining change the order of service in nothing. |
| WorkQueue.Queue.Get | comm_work_queue.c:27-51 | The first entry is returned and removed; NULL exactly if the queue is empty. |
| QueueMachine.PushKeeps | comm_work_queue.c:17-24 | A swap that succeeds links the entry onto the present intake stack, even if the address it compares was freed and reused since it was read. |
| QueueMachine.NoFault | comm_work_queue.c:14-51 | In no state the invariant allows does a step touch an address that is not allocated or free one twice. |
| QueueMachine.StepKeepsInvariant | comm_work_queue.c:14-51 | Every step of every thread keeps the intake, private and outgoing lists acyclic and disjoint from each other and from what callers hold, and the lock with one owner. |
| QueueRefinement.ContentsStep | comm_work_queue.c:17-47 | The queue as its callers think of it grows at a successful insert swap, shrinks when queue_out advances, and changes in no other step, the steps of a drain included. |
| QueueRefinement.StepRefines | comm_work_queue.c:14-51 | Each step of the machine is a step of the FIFO or none, and every thread sees what the FIFO says. |
| QueueRefinement.Linearizable | comm_work_queue.c:14-51 | Every interleaving of any number of producers and consumers is fault-free and is a run of the FIFO with the same calls and returns. |
| QueueSpec.RemovedThenContents | comm_work_queue.c:14-51 | Over any history, what was inserted is what was removed followed by what is still there: first in, first out, nothing lost or twice. |
| QueueSpec.EntryLeavesAfterThoseAhead | comm_work_queue.c:27-51 | An entry with p entries ahead of it is returned by the (p+1)-th non-empty get that takes effect from then on. |
| QueueProgress.InsertRetriesFromCall | comm_work_queue.c:17-24 | From its call on, an insert's failed swaps number at most the changes other threads made to queue_in. |
| QueueProgress.OnlyPushesMeanwhile | comm_work_queue.c:32-34 | While a get is about to swap, only inserts change queue_in. |
| QueueProgress.GetRetriesFromCall | comm_work_queue.c:32-34 | From its call of a get on, a caller's failed swaps number at most the inserts that succeed while it holds the lock. |
| QueueProgress.RelinkBalance | comm_work_queue.c:35-40 | Relinks done and relinks still to do are together exactly the successful inserts. |
| QueueProgress.RelinksAtMostPushes | comm_work_queue.c:35-40 | Over any run the drain loops relink at most once for every successful insert. |
| QueueCompletion.NeverRefused | comm_work_queue.c:14-51 | In every state the invariant allows, a thread inside an insert or a get can make a step, if and only if it is not waiting for a lock that is taken. |
| QueueCompletion.CallersAreNeverRefused | comm_work_queue.c:14-51 | Calls, returns and frees happen exactly when their caller is ready for them, an insert with an entry at any free address, a get with exactly the result it came to. |
| QueueCompletion.CompletesAlone | comm_work_queue.c:17-48 | A thread anywhere inside an insert or a get, a lost swap behind it or not, that is left alone completes it in at most four steps for each node in the intake and private lists and ten more (an insert in five), with the connection put at the end, or the first one returned. |
| Rotation.TurnCounter.GetWorkerIndex | comm_server.c:536-549 | The present turn is returned, and it passes on, with wrap-around, exactly if the caller has it. |
| Rotation.TurnOrder | comm_server.c:536-549 | The k-th turn won after the counter stood at cur goes to worker (cur + k) mod n, whatever the scheduling, and the counter stays below n. |
| Rotation.RoundsAdvance | comm_server.c:586-588 | If every worker calls at least once in each round, at least one turn is won per round. |
| Rotation.EveryWorkerServed | comm_server.c:586-588 | n such rounds give every worker a turn. |
| Adopter.Enqueue | comm_server.c:868-872 | The descriptor of a new connection goes in a fresh entry to the end of the queue. |
| Adopter.TurnTaker.TakeTurn | comm_server.c:586-604 | A worker takes an entry exactly in its turn and if there is one, registers its descriptor if epoll_ctl succeeds, frees the entry either way, and every turn is an adoption, an empty get or a failed add. |
| Adoption.RotationKept | comm_server.c:536-604 | Every step of the server keeps the workers' turns within one of each other and in rotation order, and each turn accounted for. |
| Adoption.AdoptionBalance | comm_server.c:586-604 | num_fds plus empty gets plus failed adds differ by at most two between any two workers. |
| Ownership.OwnershipKept | comm_server.c:586-604 | Every step of the server keeps each accepted connection in exactly one place. |
| Ownership.ExactlyOnePlace | comm_server.c:868-872 | An accepted connection is in one place and no other; a connection that was not accepted is nowhere. |
| Ownership.NeverGoesBack | comm_server.c:586-604 | A connection only ever moves forward: accepted, queued, carried, registered or dropped, closed. |
| Delivery.PlanFrames | comm_server.c:311-425 | In one call or in chunks, the buffers an adequate send writes are together the frame of the message meant. |
| Delivery.ChunkedPlanIsExact | comm_server.c:367-425 | Chunks that total msg_len put that frame on the wire if and only if the plan is adequate, that is, no chunk is empty or there is no payload. |
| LinkLoops.WritesAreNeverRefused | comm_tcp_client.c:126-151 | A live connection takes any result of a write exactly as long as something is left to write. |
| LinkLoops.WriteStepsAreLoops | comm_tcp_client.c:88-151 | For every sequence of results, the single write steps of a connection of the machine are the write loops over its buffers: same bytes, same results used, write-dead exactly on failure, nothing left exactly at the end, and what is left otherwise is what has not been written. |
| LinkLoops.PlanIsSent | comm_tcp_client.c:64-270 | So a connection of the machine on which a plan begins writes what the calls of that plan write: one send, or send_header and send_data for each part. |
| Delivery.DeliveryKept | comm_server.c:645-765 | Every step keeps what was delivered on each connection equal to what has been read off its wire in whole frames. |
| Delivery.DeliveredIsPrefix | comm_server.c:645-765 | Under that invariant what was delivered is a prefix of what was sent. |
| Worker.Worker.ReadPayload | comm_server.c:719-755 | The payload is read into a buffer of its size; on EOF or a hard error both buffer and message are freed. |
| Worker.Worker.Deliver | comm_server.c:757-764 | Message and buffer are handed over together, or both freed if there is no client_func. |
| Worker.Worker.ReadMessage | comm_server.c:653-755 | The first message of the stream is read whole into the message object, or everything allocated for it is freed. |
| Worker.Worker.HandleReadable | comm_server.c:645-765 | One event ends as one receive does: exactly one message, the first of the stream, is taken and delivered, or nothing is delivered and nothing stays allocated. |
| Worker.Worker.HandleBroken | comm_server.c:613-644 | An error event closes the connection and calls error_func once with its descriptor if there is one and malloc succeeds; the error message is freed again. |
| Worker.Worker.HandleBatch | comm_server.c:613-766 | Over a batch and every way out of it, each allocation is freed once or handed over once, never both, and what is delivered, closed and reported is what Batch.BatchFrom says. |
| Batch.BatchMeaning | comm_server.c:612-766 | In terms of kinds and streams alone: a batch delivers the first message of each readable connection and closes each broken one, in order, up to the first readable connection without a whole message; it is handled to its end if and only if there is none. |
| BatchSteps.ReadingIsReceive | comm_server.c:653-755 | The single read steps of a worker of the machine, for any fragmentation and any retries, are one receive: the message decoded and delivered and the batch gone on with, or the connection dead and the worker back at epoll_wait. |
| BatchSteps.TakenMeaning | comm_server.c:653-755 | These steps take exactly the bytes of the frame, or all that came before the end. |
| BatchSteps.BatchIsEventLoop | comm_server.c:606-767 | A worker of the machine, left alone with a batch, delivers and closes what the event loop does and ends at the top of its loop, or at epoll_wait behind the first connection that ended. |
| EndToEnd.DeliveredInOrder | comm_server.c:586-767 | In every reachable state of the whole system what was delivered on a connection is a prefix of what was sent on it. |
| EndToEnd.MemorySafe | comm_work_queue.c:14-51 | No step from a reachable state of the whole system touches a queue entry that is not allocated. |
| EndToEnd.OneWorkerPerConnection | comm_server.c:587-603 | In every reachable state at most one worker has a connection registered, and it is then neither closed nor dropped. |
| EndToEnd.RegisteredForGood | comm_server.c:587-603 | If one worker registered a connection at some point of a run and one has it registered at the end, they are the same. |
| EndToEnd.ConnectionsConserved | comm_server.c:868-872 | In every reachable state each accepted connection is in exactly one place, and no other connection is anywhere. |
| EndToEnd.FairShares | comm_server.c:586-604 | In every reachable state of the whole system the adoption balance holds. |
| EndToEnd.CountsAreExact | comm_server.c:593-602 | In every reachable state num_fds is the number of connections the worker ever registered and failedAdds the number it dropped, except between epoll_ctl and the counting. |
| Counting.CountingKept | comm_server.c:593-602 | Every step of the server keeps these counts. |
| Service.TurnAdopts | comm_server.c:586-604 | From any state the system can be in, a worker whose turn it is, left alone while nobody holds the lock of the queue, comes to epoll_wait in a bounded number of steps with the first connection of the queue registered; with nothing only if the queue is empty, and to the top of its loop with the connection dropped only if epoll_ctl fails. |
| Service.AcceptEnqueues | comm_server.c:842-873 | From any state the system can be in, the accept thread, left alone with a connection, puts it at the end of the queue in at most eight steps and listens again. |
| Service.SurroundingsAreNeverRefused | comm_server.c:606-613 | Clients connect, begin to send and go, connections arrive, and epoll reports any registered connections with any kinds of events, exactly when they may. |
| Service.WorkersGoOn | comm_server.c:586-612 | A worker whose turn it is not polls at once; a failed poll leads back to the top, any other to the batch reported. |
| Families.FamilyTable.constructor | log_functions.c:313-319 | At first the system errors are registered under 0 and nothing under any other number. |
| Families.FamilyTable.AddFamilyError | log_functions.c:472-494 | The table and the number that comes back are those of the specification Add, refusals included. |
| Families.FamilyTable.FindTable | log_functions.c:509-522 | The table of the first slot with the number, or none. |
| Families.FindErrorEntry | log_functions.c:524-543 | The first entry that has the number or ends the table. |
| Families.FindErrorMeaning | log_functions.c:524-543 | The specification of the search gives the first entry with the number or the end marker, and none if there is neither. |
| Families.LaterAddsKeepLookups | log_functions.c:472-494 | A number that is registered keeps its table whatever is added later. |
| Families.AddedOrShadowed | log_functions.c:482-493 | With a free slot and a number in range, the number asked for is given out, and it stands for the new table if and only if it was not registered before the call; otherwise the old table stays. |
| Families.RefusedUnlessAccepted | log_functions.c:476-487 | A call is refused, and changes nothing, exactly when the number is out of range or 0 or there is no free slot. |
| Families.IndexIsTaken | log_functions.c:489-493 | An input for it: after a family was registered under 2, one registered under any number is given 2 as well and is not found. |
| Scanner.NextToken | log_functions.c:649-661 | The loops find the token the specification Scan gives. |
| Scanner.ConversionToken | log_functions.c:663-889 | The same behind the percent sign: flags, width, precision, length modifier, conversion. |
| Tokenization.TokenizerIsExact | log_functions.c:648-889 | Where the text of a segment stands, the scanner takes exactly that text, with its conversion, length and stars, if and only if the next character does not swallow its %h. |
| Tokenization.ScanningFinds | log_functions.c:639-892 | At every segment of a format the scanner finds just that segment, and at its tail none, if and only if no %h of the format is swallowed. |
| Tokenization.CutIsPartition | log_functions.c:639-892 | The segments and the trailing text of any string concatenate to the string, and no segment is empty. |
| Tokenization.CutFindsSegments | log_functions.c:639-892 | The segments cut off a format are its segments, one conversion each. |
| Tokenization.SegmentTextUnique | log_functions.c:663-889 | The text of a segment with one of the C library's conversions can be read in one way only. |
| Spelling.CharacterClasses | log_functions.c:660-889 | Which characters are flags, digits, and letters of integer, floating and extended conversions, as literal strings. |
| Spelling.FlagsAreRead | log_functions.c:660-665 | Every flag is read in front of a width and a conversion. |
| Spelling.LettersAreRead | log_functions.c:770-806 | Every conversion letter of the C library, alone behind its percent sign, and the kind it is of. |
| Spelling.OtherLettersAreRead | log_functions.c:807-889 | "%%", "%m" and every letter of the log module, in the same way. |
| Spelling.LengthsAreRead | log_functions.c:717-763 | h, hh, l and ll before every integer conversion. |
| Spelling.OtherLengthsAreRead | log_functions.c:717-754 | L, q, z, Z, t and j before every integer conversion. |
| Spelling.StarsAreRead | log_functions.c:672-698 | Widths and precisions given by arguments, counted. |
| Spelling.DigitsAreRead | log_functions.c:667-708 | Widths and precisions given by any digits. |
| Spelling.ArgumentTypes | log_functions.c:911-1030 | The types of the arguments of every conversion with every length modifier, spelled out. |
| SegmentMeaning.TableIsExact | log_functions.c:911-989 | The stepping table takes the argument ISO C says, for every length modifier and conversion that go together, if and only if it is not l before a non-integer conversion. |
| SegmentMeaning.ResolvedIfRegistered | log_functions.c:1043-1115 | With end markers in all tables, a number is found exactly if its family has a table. |
| SegmentMeaning.SegmentIsExact | log_functions.c:891-1120 | A segment prints what it means and leaves the list at the next segment's arguments if the table knows its conversion and its number is found; in every other case the list is left at a wrong place or the behaviour is undefined. |
| Stepping.SkipIsDrop | log_functions.c:904-989 | Taking arguments of given types one by one drops exactly these, if and only if they are of these types. |
| Formatter.RunGoesOn | log_functions.c:639-1123 | After k turns of the loop the whole run is what was printed by then and the run from there on. |
| Formatter.NeverDrifts | log_functions.c:639-1123 | In the run over the text of a format, for every argument list of the types it asks for, every turn starts at the next segment with va_arg at its first argument, if and only if every segment is covered. |
| Formatter.SegmentwiseIsWhole | log_functions.c:639-1127 | The run over segments prints the text of the whole format against the whole argument list, each %r and %v under the last preceding %J and %K. |
| Formatter.UnregisteredFamilyDrifts | log_functions.c:1043-1047 | "%r%d" without a table of POSIX errors prints the number meant for %r as the number of %d. |
| Formatter.LongFloatIsUndefined | log_functions.c:954-973 | "%lf" with a double is undefined behaviour. |
| Formatter.LaterFamiliesChangeNothing | log_functions.c:472-494 | A family added later leaves a covered format covered, and log_vsnprintf prints for it what it printed before. |
| Conversions.ShortStatus | log_functions.c:1001-1005 | %b and %h print label(number), the number as an int holds it. |
| Conversions.LongStatus | log_functions.c:1007-1011 | %B and %H print label(number) : 'message'. |
| Conversions.ShortError | log_functions.c:1013-1020 | %y prints the first label and label(number) of the second status. |
| Conversions.LongError | log_functions.c:1022-1030 | %Y prints both statuses in full with an arrow between them. |
| Conversions.FamilyConversions | log_functions.c:1032-1115 | After %J and %K: %r, %R print the entry of the family %J gave, %v, %V that of the family %K gave, %w, %W that of family 1; %V prints the number asked for, the others that of the entry, %W the text of strerror, each text written out. |
| Conversions.LastChangeCounts | log_functions.c:1032-1040 | Of several changes the last one counts. |
| Conversions.DefaultFamilies | log_functions.c:626-627 | Without a change errors are of family 1 and contexts of family 0. |
| Formatter.ConformingExists | log_functions.c:891-902 | What is asked of vsnprintf can be met, whatever the single conversions print. |
| Formatter.FormatHasNoNul | log_functions.c:656-657 | The text of a format holds no NUL, so the scan ends at its end. |
| LogPrinter.VaList.Skip | log_functions.c:904-989 | The loop over the stars and the switch take the arguments of the specification, or stop where C leaves the behaviour open. |
| LogPrinter.VaList.NextStatus | log_functions.c:994 | Number, label and message are taken in this order, the number cut to an int. |
| LogPrinter.PrintStatus | log_functions.c:1001-1030 | The texts of %b %B %h %H %y %Y. |
| LogPrinter.PrintFamily | log_functions.c:1042-1115 | The texts of %r %R %v %V %w %W, and the question mark for a family without a table. |
| LogPrinter.PrintExtended | log_functions.c:999-1117 | Every extended conversion takes, prints and remembers what the specification says. |
| LogPrinter.LogVsnprintf | log_functions.c:609-1130 | The loop computes the run that Formatter reasons about, on every C string and every argument list. |

## Left out

- Liveness: that a sent message is eventually delivered is not claimed. A worker is edge-triggered
  but reads one message per event, and a connection that ends makes it abandon the rest of its batch.
  What is claimed is what a thread that is left alone gets done.
- Sockets, bind, connect, fcntl, epoll and thread creation, syslog and log files: foreign calls. Only
  the results of reads, writes, `accept`, `epoll_ctl` and `epoll_wait` are modelled, as any results.
- Descriptors the kernel uses again after `close` while epoll events for the old one are pending:
  connections have numbers of their own.
- Several servers that share the turn counter: the rotation holds for one server only.
- Chunked sending through the Unix client, whose init never sets the functions for it.
- Weak memory and torn accesses: each step is one atomic access, in program order.
- WorkQueue.Queue.Insert: one caller at a time, so its swap succeeds at once; retries are in QueueMachine.
- WorkQueue.Queue.Get: the same; the mutex is in QueueMachine.
- Adopter.TurnTaker.TakeTurn: no other thread comes between its calls; interleavings are in Server and EndToEnd.
- Worker.Worker.HandleBatch: stops in a read that gets no further result, where the program would go on looping.
- Worker.Worker.ReadPayload: malloc succeeds, because the program asserts that it does.
- Delivery.DeliveryKept: responders write on a connection of their own in the model; the two directions of a socket do not meet.
- The scripts of `SocketLoops` are finite: a loop that has used its script up is reported as still looping.
- `usleep`, `errno` values other than EAGAIN and EINTR, and the log lines of the loops.
- Truncation: `subformat`, `tmpout` and `out` are long enough. The size argument is not modelled.
- The return value of `log_vsnprintf`, which skips trailing text and extended conversions.
- Formats outside the grammar of `Format`: a trailing incomplete `%`, a `.` not followed by a digit
  or `*`, positional `$`, `%n`, flags, width or length modifiers on extended conversions. The scanner
  and the loop are modelled for them; what they should print is not.
- LogPrinter.LogVsnprintf: a scan that would run past the end of the string is reported as undefined, without saying what would be printed.
- Integers are unbounded in arguments, except where the program stores a long in an int.
- How `vsnprintf` renders one conversion, decimal numbers and `strerror_r`: uninterpreted functions.
- Log levels, their names, log destinations, `MakeLogError` and the dispatch of `comm_client.c`.
