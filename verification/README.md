# Verified models of Infinity

Infinity is a database for embeddings, written in C++. This project models the
parts of it whose correctness is least obvious from the code and proves what
they promise. It is written for Dafny 4.11; `dafny verify dfyconfig.toml` takes
the whole project.

| component | files |
|---|---|
| The Jiffy multi-producer, single-consumer queue | `MpscState`, `MpscInvariant`, `MpscProducers`, `MpscConsumer`, `MpscRuns`, `MpscQueue`, `MpscSchedules`, `MpscLateTail`, `MpscLimit`, `MpscUnlimited`, `MpscProgress`, `MpscLookAhead` |
| The PostgreSQL wire layer | `Bytes`, `Ring`, `BufferWriter`, `BufferReader`, `Messages`, `MessageDecoder`, `ProtocolHandler`, `Replies`, `Connection`, `Transfer` |
| Plans, fragments and fragment completion | `Fragments`, `FragmentProperties`, `Planner`, `QueueSource` |
| WAL group commit and its checksum | `WalLog`, `Wal`, `WalFlush`, `Crc` |
| Conjunct splitting and composing | `ExpressionTransformer` |
| Two in-place array loops | `InPlace` |

How the parts are modelled:

- **Queue.** `enqueue` is a step machine: each atomic access of the source is one
  step, and any number of producers interleave. Memory is sequentially
  consistent, the buffer size N is a parameter, and locations are 32-bit. A run
  may hold any number of enqueues; the limit, below, is the number of locations
  in the whole buffers below 2^32. The consumer's effects are steps too;
  `Dequeue` is a method with the source's search loops that runs between
  producer steps and is proved to be a sequence of those steps. `chain`, `log`, `published`, `consumed` and `writes` record
  what happened and never decide what a step does; `CanTakeAhead` uses `chain` to
  say what a scan has passed. In the queue object they are ghost.
- **Wire layer.** The two ring buffers are arrays with two positions. A socket
  write takes any number of bytes between the minimum asked for and all that is
  offered; a socket read hands over any number between the minimum and the free
  space. The answer to a query and the text of an exception are parameters.
- **Fragments.** `Build` is the specification; `BuildFragments` is the source's
  recursion, which mutates the current fragment before and after its recursive
  calls, and is proved equal to it.
- **WAL.** Sessions and `Flush()` are interleaved atomic steps. The log file is
  opened for appending and may hold anything before. `WalFlush` adds
  `Flush()` as a method with its loops, with arbitrary session steps between any
  two of its own.
- **CRC.** A 32-bit word is a sequence of 32 bits, lowest first. `IeeeCrc` is
  the standard's definition by polynomial division, written without the shift
  register.

Where the code differs from what its comments say, the model follows the code:

- `dequeue` is documented to return false when the queue is empty. It also
  returns false when a late tail store has moved the tail pointer back to a
  used-up buffer: the head buffer has not passed it, every location of it is
  consumed, and so is everything published below it. The code gives up there at
  line 233 when the head buffer is that buffer, and at line 194 when the head
  slot is still unset and the scan meets that buffer with every slot handled.
  `MpscQueue.MPSCQueue.Dequeue` states exactly when it returns nothing;
  `MpscLateTail.LateTailHidesItem` and `MpscLateTail.LateTailHidesItemBehind`
  build a run into each of the two cases, with an item published beyond the
  tail, for every buffer size of which three buffers fit 32-bit locations.
- `location` runs to 2^32, but the sizes `enqueue` compares it with do not: at a
  location from the limit on, `global_size` wraps, and in its own buffer the
  producer does not write but goes on to allocate the next one. For N = 1620
  these are the last 616 locations. `MpscLimit.WritesExactlyBelowLimit` is the
  step, `MpscLimit.LimitStopsEnqueue` a run into it for every buffer size, and
  `MpscLimit.LimitIsExact` says that the limit is the exact number of enqueues up
  to which every producer writes its slot in every run.
- On a log file that held records when it was opened, the LSNs start again at
  one. `Wal.LogNumbered` states exactly when the i-th record of the file carries
  i, and `WalFlush.ReopenedLog` reaches the other case from every earlier log.
- A query whose length field is 4 makes the server read the last character of
  an empty string, which is undefined. `Connections.Connection.Serve` and `Run`
  state exactly for which inputs a connection comes to that.
- The four bytes after a log record are documented to repeat the payload size.
  They hold the size of the whole entry.

## Model

| member | source | states |
|---|---|---|
| MpscProducers.StepIsSafe | benchmark/common/mpsc_queue.h:243-306 | In a state that satisfies the invariant, every next step of every producer dereferences a buffer that exists and indexes inside it |
| MpscProducers.ReserveInv | benchmark/common/mpsc_queue.h:246-247 | Reserving a location keeps the invariant exactly when fewer locations than the limit are reserved |
| MpscProducers.AdvanceInv | benchmark/common/mpsc_queue.h:248-305 | Every other atomic step of `enqueue`, including the late tail store, keeps the invariant |
| MpscProducers.SizesExact | benchmark/common/mpsc_queue.h:252-261 | Below the location limit the 32-bit `prev_size` and `global_size` do not wrap |
| MpscConsumer.SkipInv | benchmark/common/mpsc_queue.h:127-130 | Stepping over a handled slot keeps the invariant |
| MpscConsumer.DropInv | benchmark/common/mpsc_queue.h:231-239 | Dropping the head buffer keeps the invariant |
| MpscConsumer.TakeHeadInv | benchmark/common/mpsc_queue.h:224-229 | Taking the head slot keeps the invariant |
| MpscConsumer.TakeAheadInv | benchmark/common/mpsc_queue.h:173-181 | Taking a set slot behind an unset head slot keeps the invariant |
| MpscConsumer.TakeHeadLowest | benchmark/common/mpsc_queue.h:224-229 | The item at the head slot has the lowest location published and not consumed |
| MpscConsumer.TakeAheadLowest | benchmark/common/mpsc_queue.h:136-181 | So has the item found behind an unset head slot |
| MpscConsumer.TakeLowest | benchmark/common/mpsc_queue.h:117-241 | Taking the lowest published location keeps "only published items, none twice, each producer's items in its own order" |
| MpscRuns.RunInv | benchmark/common/mpsc_queue.h:117-306 | The invariant holds in every state of every run of producers and consumer, up to the limit |
| MpscRuns.ChainInEveryRun | benchmark/common/mpsc_queue.h:243-306 | In every run up to the limit the buffers form one chain of consecutive positions with matching links, it holds head and tail, and every producer's next step is safe |
| MpscRuns.WrittenOnceInEveryRun | benchmark/common/mpsc_queue.h:255-268 | In every run up to the limit location L is written only to slot L mod N of buffer L div N + 1, and no slot is written twice |
| MpscRuns.ConsumedInEveryRun | benchmark/common/mpsc_queue.h:117-241 | In every run up to the limit only published items are consumed, none twice, each producer's in its own order |
| MpscRuns.NothingLostInEveryRun | benchmark/common/mpsc_queue.h:117-241 | Up to the limit, a published item that is not consumed is set in its slot, at or after the head of a buffer that is not dropped |
| MpscRuns.DroppedIsConsumed | benchmark/common/mpsc_queue.h:231-239 | Up to the limit, every location of a dropped buffer was consumed |
| MpscRuns.HistoryGrows | benchmark/common/mpsc_queue.h:117-306 | What is reserved, written, published or consumed stays so along every run |
| MpscQueue.HistoryUnread | benchmark/common/mpsc_queue.h:248-305 | A producer step does the same to memory whatever the history says |
| MpscQueue.Rescan | benchmark/common/mpsc_queue.h:144-171 | With no producer step inside the call, the second scan meets no set slot before the one found |
| MpscQueue.SearchBuffer | benchmark/common/mpsc_queue.h:136-188 | The scan of one buffer returns its first set slot, or shows that none is set and whether every slot from its head on is handled |
| MpscQueue.SearchRound | benchmark/common/mpsc_queue.h:138-219 | One buffer of the scan: a slot found may be taken; giving up, for want of a next buffer or at a tail buffer all handled, means nothing is pending or the tail is used up |
| MpscQueue.SearchAhead | benchmark/common/mpsc_queue.h:132-221 | The scan over the buffers returns a slot that may be taken, and then the tail is not used up; or nothing published is pending or the tail is used up |
| MpscQueue.MPSCQueue.constructor | benchmark/common/mpsc_queue.h:95-104 | A new queue is the initial state of a run |
| MpscQueue.MPSCQueue.BeginEnqueue | benchmark/common/mpsc_queue.h:246-247 | Extends the object's run by a reservation, at any location |
| MpscQueue.MPSCQueue.EnqueueStep | benchmark/common/mpsc_queue.h:248-305 | Up to the limit the next step of any producer is safe and extends the object's run |
| MpscQueue.MPSCQueue.SafeStep | benchmark/common/mpsc_queue.h:248-305 | Any safe producer step extends the object's run, also beyond the limit |
| MpscQueue.MPSCQueue.IsEmpty | benchmark/common/mpsc_queue.h:119-124 | Up to the limit the emptiness test is true exactly when head and tail buffer are one and its head is the next location to be reserved; nothing published is then pending |
| MpscQueue.MPSCQueue.Dequeue | benchmark/common/mpsc_queue.h:117-241 | Up to the limit, returns the item of the lowest published location not consumed; returns none exactly when there is none, or the head has not passed the tail buffer, every location of that buffer is consumed and so is all that is published below it |
| MpscLateTail.LateTailHidesItem | benchmark/common/mpsc_queue.h:231-233 | For every buffer size that leaves room for three buffers, a run after which an item is published, the tail pointer is back at the used-up head buffer and `dequeue` finds nothing |
| MpscLateTail.LateTailHidesItemBehind | benchmark/common/mpsc_queue.h:190-194 | For every such size, a run after which an item is published, the head slot is unset, the tail pointer is back at a handled buffer behind it and `dequeue` finds nothing |
| MpscSchedules.PublishItem | benchmark/common/mpsc_queue.h:248-280 | A producer left to go on alone, from any tail pointer at or after its buffer, walks back, writes, publishes and is done, and changes nothing else; a look-ahead buffer is freed when a next one is there |
| MpscSchedules.LinkLast | benchmark/common/mpsc_queue.h:282-293 | A producer beyond the last buffer, left alone, links exactly one new buffer and stands before its tail store |
| MpscLimit.WritesExactlyBelowLimit | benchmark/common/mpsc_queue.h:252-282 | A producer in the buffer its location lies in, with the 32-bit sizes of the code, writes its slot exactly when the location is below the limit, and otherwise goes on to the next buffer |
| MpscLimit.LimitStopsEnqueue | benchmark/common/mpsc_queue.h:261-293 | For every buffer size, a run with one enqueue more than the limit whose owner links its own buffer, stands in it and does not write |
| MpscLimit.LimitIsExact | benchmark/common/mpsc_queue.h:252-282 | In every run of at most n enqueues every producer that stands in its own buffer writes its slot, exactly when n does not exceed the limit |
| MpscLimit.NodeSizeLimit | benchmark/common/mpsc_queue.h:37 | For 1620 slots the limit is 2^32 - 616 |
| MpscUnlimited.UnlimitedRunInv | benchmark/common/mpsc_queue.h:243-306 | In every run, of any number of enqueues, sizes and positions agree modulo 2^32 and buffers of which every size fits are written only with their own locations |
| MpscUnlimited.OwnSlotOnlyBelowLimit | benchmark/common/mpsc_queue.h:252-267 | In every run, of any number of enqueues, a location is written to its own slot only below the limit |
| MpscUnlimited.NextBufferNeverWritten | benchmark/common/mpsc_queue.h:252-267 | In every run the buffer after the last whole one is never written |
| MpscProgress.OwnStepCounts | benchmark/common/mpsc_queue.h:248-305 | Every step of a producer adds a buffer, ends a pending tail store, moves the tail on, ends the call or brings its end nearer |
| MpscProgress.EnqueueFinishes | benchmark/common/mpsc_queue.h:92-306 | In every run up to the limit, under any schedule, a call of `enqueue` takes at most a number of its own steps that depends only on the number of buffers, and until then its next step is safe |
| MpscProgress.StepBoundIs | benchmark/common/mpsc_queue.h:92 | With B buffers that number is (2B + 11)((B + 1)^3 + 1) |
| MpscLookAhead.LooksAheadExactlyWhen | benchmark/common/mpsc_queue.h:266-280 | In every run up to the limit, a call that has set its slot goes on to allocate the next buffer exactly when the slot is the second of its buffer and the call has not walked back; otherwise it is done |
| MpscLookAhead.FlagIsWalkedBack | benchmark/common/mpsc_queue.h:247-258 | The flag of a call is set exactly when the call has gone from a buffer to the one before it |
| MpscLookAhead.NoBufferLeaks | benchmark/common/mpsc_queue.h:268-293 | In every run, of any number of enqueues, every allocated buffer is linked, or one call is about to link or free it |
| Ring.WindowInPieces | src/network/buffer_writer.cpp:115-127 | The one or two pieces offered to the socket are the ring's contents |
| Ring.AdvanceDistance | src/network/buffer_writer.cpp:31-34 | Advancing the end by n makes the ring n longer, as long as one slot stays free |
| BufferWriters.BufferWriter.CopyN | src/network/ring_buffer_iterator.cppm:89-93 | Copying into free slots leaves all unsent bytes as they were |
| BufferWriters.BufferWriter.Flush | src/network/buffer_writer.cpp:107-137 | Fails exactly when asked for more than is buffered or when nothing is; otherwise at least the minimum goes out, in order, and sent plus ring contents stay the same |
| BufferWriters.BufferWriter.TryFlush | src/network/buffer_writer.cpp:139-143 | States exactly when it succeeds, and that the bytes then fit |
| BufferWriters.BufferWriter.SendValue | src/network/buffer_writer.cpp:60-105 | A value of at most four bytes is always accepted and appended to all bytes sent |
| BufferWriters.BufferWriter.SendU8 | src/network/buffer_writer.cpp:67-73 | Appends one byte |
| BufferWriters.BufferWriter.SendU16 | src/network/buffer_writer.cpp:83-89 | Appends the low 16 bits in network order, which `Bytes.Put16Is` spells out |
| BufferWriters.BufferWriter.SendU32 | src/network/buffer_writer.cpp:99-105 | Appends the low 32 bits in network order, which `Bytes.Put32Is` spells out |
| BufferWriters.BufferWriter.SendI8 | src/network/buffer_writer.cpp:60-65 | Appends the two's complement byte |
| BufferWriters.BufferWriter.SendI16 | src/network/buffer_writer.cpp:75-81 | Appends the two's complement in network order |
| BufferWriters.BufferWriter.SendI32 | src/network/buffer_writer.cpp:91-97 | Appends the two's complement in network order |
| BufferWriters.BufferWriter.SendPiece | src/network/buffer_writer.cpp:45-51 | With a full ring, one round flushes no more than is buffered, appends the next piece, and leaves the ring full if some of the string is left |
| BufferWriters.BufferWriter.SendString | src/network/buffer_writer.cpp:36-58 | A string of any length and its terminator are appended, for any partial writes |
| BufferReaders.BufferReader.Scatter | src/network/buffer_reader.cpp:155-167 | The one or two free pieces total capacity minus size, and filling them leaves all unread bytes as they were |
| BufferReaders.BufferReader.ReceiveMore | src/network/buffer_reader.cpp:142-178 | Succeeds exactly when the stream still holds that many bytes, and loses none; otherwise which exception follows |
| BufferReaders.BufferReader.Take | src/network/ring_buffer_iterator.cppm:73-87 | Copies out and frees the oldest n bytes |
| BufferReaders.BufferReader.ReadU8 | src/network/buffer_reader.cpp:68-76 | The next byte of the stream, or the client-closed exception exactly at its end |
| BufferReaders.BufferReader.ReadI8 | src/network/buffer_reader.cpp:58-66 | The same, read as two's complement |
| BufferReaders.BufferReader.ReadU16 | src/network/buffer_reader.cpp:88-96 | The next two bytes of the stream in network order, which `Bytes.Get16Is` spells out, for any chunking |
| BufferReaders.BufferReader.ReadI16 | src/network/buffer_reader.cpp:78-86 | The same, read as two's complement |
| BufferReaders.BufferReader.ReadU32 | src/network/buffer_reader.cpp:107-114 | The next four bytes of the stream in network order, which `Bytes.Get32Is` spells out, for any chunking |
| BufferReaders.BufferReader.ReadI32 | src/network/buffer_reader.cpp:98-105 | The same, read as two's complement |
| BufferReaders.BufferReader.ReadPieces | src/network/buffer_reader.cpp:116-130 | The next n bytes of the stream for any n and any chunking, exactly when they are there |
| BufferReaders.BufferReader.ReadString | src/network/buffer_reader.cpp:116-140 | A terminated string is returned exactly when its bytes are there and end in a null byte, which is dropped; length zero is undefined; what is left to read in every case |
| Bytes.RoundTrip16 | src/network/buffer_reader.cpp:88-96 | Reading 16 bits back gives the value sent, modulo 2^16 |
| Bytes.RoundTrip32 | src/network/buffer_reader.cpp:107-114 | Reading 32 bits back gives the value sent, modulo 2^32 |
| Bytes.SignedRoundTrip | src/network/buffer_reader.cpp:78-105 | Two's complement is undone |
| Bytes.Put16Is | src/network/buffer_writer.cpp:75-89 | Sixteen bits go out as v / 256 mod 256, then v mod 256 |
| Bytes.Put32Is | src/network/buffer_writer.cpp:91-105 | Thirty-two bits go out as four bytes, the highest first |
| Bytes.Get16Is | src/network/buffer_reader.cpp:78-96 | Bytes a, b read as 256 a + b |
| Bytes.Get32Is | src/network/buffer_reader.cpp:98-114 | Bytes a, b, c, d read as 2^24 a + 2^16 b + 2^8 c + d |
| Bytes.TwosComplement | src/network/buffer_writer.cpp:60-97 | The code of zero is zero, and the code of v + 1 follows the code of v modulo the width, for every signed v |
| Transfer.Deliver | src/network/pg_protocol_handler.cpp:46-164 | Any sequence of messages sent through the handler and flushed is cut by its length fields into exactly those messages, and decodes to them |
| Transfer.SendAndReceive | src/network/buffer_writer.cpp:36-143 | Any list of values and strings of any length written through one ring is read back unchanged through the other, whatever pieces the socket moves |
| Messages.LengthFieldExact | src/network/pg_protocol_handler.cpp:46-164 | For every message within its widths the length the server computes up front equals the bytes that follow the type byte |
| MessageDecoder.UnframeEncodeAll | src/network/pg_protocol_handler.cpp:46-164 | Any sequence of messages is cut by its length fields into exactly those messages, in order |
| MessageDecoder.BodyBack | src/network/pg_protocol_handler.cpp:46-164 | A decoder written from the message formats reads every body back, given strings without null bytes |
| MessageDecoder.ReadsBack16 | src/network/pg_protocol_handler.cpp:105-156 | A client that reads a number byte by byte, the highest first, reads the 16-bit number sent |
| MessageDecoder.ReadsBack32 | src/network/pg_protocol_handler.cpp:46-164 | The same for 32 bits |
| MessageDecoder.DecodeEncodeAll | src/network/pg_protocol_handler.cpp:46-164 | Decoding a stream of encoded messages gives the messages |
| ProtocolHandler.PGProtocolHandler.SendAuthentication | src/network/pg_protocol_handler.cpp:46-56 | Appends the encoding of the message |
| ProtocolHandler.PGProtocolHandler.SendParameter | src/network/pg_protocol_handler.cpp:58-64 | Appends the encoding of the message |
| ProtocolHandler.PGProtocolHandler.SendReadyForQuery | src/network/pg_protocol_handler.cpp:66-71 | Appends the encoding of the message and leaves nothing undelivered |
| ProtocolHandler.PGProtocolHandler.ErrorSize | src/network/pg_protocol_handler.cpp:84-89 | The loop computes the length field |
| ProtocolHandler.PGProtocolHandler.SendErrorResponse | src/network/pg_protocol_handler.cpp:80-103 | Appends the encoding of the message and leaves nothing undelivered |
| ProtocolHandler.PGProtocolHandler.SendDescriptionHeader | src/network/pg_protocol_handler.cpp:105-113 | Appends type, length and column count |
| ProtocolHandler.PGProtocolHandler.SendDescription | src/network/pg_protocol_handler.cpp:115-125 | Appends one column |
| ProtocolHandler.PGProtocolHandler.SendData | src/network/pg_protocol_handler.cpp:127-156 | Appends type, a length from the sum it is given, the count narrowed to 16 bits and that many values; with the values' own sum this is the encoding of the row |
| ProtocolHandler.PGProtocolHandler.SendComplete | src/network/pg_protocol_handler.cpp:158-164 | Appends the encoding of the message |
| ProtocolHandler.PGProtocolHandler.ReadStartupHeader | src/network/pg_protocol_handler.cpp:26-39 | Refuses every request for encryption with one byte and returns the body size of the first header that is not one, as an independent parse of the input says |
| ProtocolHandler.PGProtocolHandler.ReadStartupBody | src/network/pg_protocol_handler.cpp:41-44 | Consumes exactly the body, if it is there |
| ProtocolHandler.PGProtocolHandler.ReadCommandType | src/network/pg_protocol_handler.cpp:73 | The next byte, or the client-closed exception |
| ProtocolHandler.PGProtocolHandler.ReadCommandBody | src/network/pg_protocol_handler.cpp:75-78 | The command text, exactly when the length fits and the text ends in a null byte; undefined exactly when the length leaves no body; what is left to read in every case |
| Replies.ReplyIsReply | src/network/connection.cpp:138-157 | Every answer's reply is one error response, or an optional description, rows of the same column count and one completion, then one ready-for-query |
| Replies.RowMessagesAt | src/network/connection.cpp:297-314 | Row r of block b is row message number r plus the rows of the blocks before b, carries that row's values, and there are no other row messages |
| Replies.ReplyCarriesTable | src/network/connection.cpp:292-332 | The same of a whole reply: every row of the table once, in order, after the description |
| Replies.ReplyEnds | src/network/connection.cpp:292-332 | A reply to a table is its description, if any, its rows, one completion with the statement's text and one ready-for-query, and nothing more |
| Replies.DescriptionExactlyWhen | src/network/connection.cpp:159-168 | With name lengths that sum to less than 2^32, one description of all columns is sent exactly when some column has a name |
| Replies.DescriptionTellsType | src/network/connection.cpp:169-282 | The object id sent for a column determines its type in the PostgreSQL catalogue, and the width sent is that type's |
| Replies.DecimalBack | src/network/connection.cpp:316-332 | The digits of a row count read back as the count, with no leading zero |
| Replies.CompletionReads | src/network/connection.cpp:316-332 | The completion text, byte by byte: an insert's, an import's own text, or the word of a selection followed by digits that read back as its row count |
| Replies.ErrorReads | src/network/connection.cpp:138-157 | A failed query is answered by one error response with one message field that holds the text |
| Connections.Connection.SendTableDescription | src/network/connection.cpp:159-290 | Appends the description of the columns, or nothing when the name lengths sum to zero modulo 2^32 |
| Connections.NameLengths | src/network/connection.cpp:160-164 | The loop sums the name lengths |
| Connections.Connection.RowValues | src/network/connection.cpp:303-311 | The loop collects the row's values and the sum of their lengths |
| Connections.Connection.SendRows | src/network/connection.cpp:297-314 | Appends the row messages of all blocks, which `Replies.RowMessagesAt` spells out: every row once, in order |
| Connections.Connection.SendQueryResponse | src/network/connection.cpp:292-332 | Appends the row messages of the table, every row once and in order, and one completion; `Replies.ReplyCarriesTable` and `Replies.ReplyEnds` say so of the whole reply |
| Connections.Connection.HandlerSimpleQuery | src/network/connection.cpp:138-157 | An answered query's reply is appended whole; an exception leaves nothing sent |
| Connections.Connection.HandleRequest | src/network/connection.cpp:91-136 | One request by its type, exactly: a query that has arrived gets its answer's reply or the error of a missing terminator, a farewell ends the connection, ignored types send nothing, others get the error of an unknown type; it is undefined exactly when it is a query with no body |
| Connections.Connection.ServeRequest | src/network/connection.cpp:63-76 | One round of the loop sends exactly the response to the request, also when the request throws, and reports exactly whether the request was undefined |
| Connections.Connection.HandleConnection | src/network/connection.cpp:79-89 | Startup succeeds exactly when header and body are there, and then sends the startup messages, which `Connections.StartupMessagesAre` lists |
| Connections.QueryParses | src/network/pg_protocol_handler.cpp:73-78 | The bytes of a simple query are read back as that query |
| Connections.ScriptSession | src/network/connection.cpp:63-76 | A script of simple queries gets exactly their answers, in order |
| Connections.StartupParses | src/network/pg_protocol_handler.cpp:26-44 | A client that asks n times for encryption and then sends a startup packet of any other version is refused n times, and its requests begin after the packet's body |
| Connections.RefusalsAre | src/network/pg_protocol_handler.cpp:30-35 | Each refusal is the one byte N |
| Connections.StartupMessagesAre | src/network/connection.cpp:79-89 | Authentication, the four parameters with their texts byte by byte, and ready-for-query |
| Connections.Connection.Serve | src/network/connection.cpp:63-76 | For any input and any chunking all that is sent is a sequence of well-formed replies; unless the client closes inside a query they are exactly the replies to its requests, in order, each query with its own answer; undefined behaviour is reached exactly when the input leads to a query with no body |
| Connections.Connection.Run | src/network/connection.cpp:52-77 | The client is delivered one refusal for each request for encryption, the startup messages and the replies to its requests, and nothing else; when their lengths fit their fields it can unframe and decode exactly those messages; undefined behaviour is reached exactly when the requests lead to it |
| Fragments.FragmentBuilder.BuildFragments | src/executor/fragment_builder.cpp:84-262 | The mutating recursion leaves the current fragment and the next id as the specification says, and throws exactly when it does; `FragmentProperties.SerialExactlyWhen` and `FragmentProperties.BuiltExactlyWhenAccepted` say by operator kind what that is |
| Fragments.FragmentBuilder.AddChildFragment | src/executor/fragment_builder.cpp:176-191 | Builds a child into a fragment of its own that sinks into the local queue |
| Fragments.FragmentBuilder.BuildFragment | src/executor/fragment_builder.cpp:37-45 | The root fragment; a source set on it is replaced by the empty source |
| FragmentProperties.BuiltExactlyWhenAccepted | src/executor/fragment_builder.cpp:84-262 | By operator kind, for every plan: the builder throws exactly when it visits one of the ten unsupported kinds, a command or scan with a child, or any other kind but a projection or a queue end without a left child |
| FragmentProperties.FragmentsRebuildPlan | src/executor/fragment_builder.cpp:84-262 | Splicing child fragments under the last operator gives what the builder visits of the plan; it is the plan exactly when no unary operator has a right child |
| FragmentProperties.FragmentsHoldEachOperatorOnce | src/executor/fragment_builder.cpp:84-262 | The operators of all fragments, in order, are the visited operators root to leaf, each once |
| FragmentProperties.FragmentsFinished | src/executor/fragment_builder.cpp:114-256 | Every fragment is a chain of operators that pass their input on, down to one that does not; the operators alone fix the type despite assignments before and after recursion, children go with a queue source, and children sink into the queue |
| FragmentProperties.SerialExactlyWhen | src/executor/fragment_builder.cpp:114-256 | In every fragment of the tree, by operator kind: it is serial exactly when it holds a sort, update or delete, or ends in a fusion or merge, one of the twenty command kinds or a one-task KNN scan; it materializes in parallel exactly when it holds none of the three and ends in an aggregate or another KNN scan; it streams exactly when it holds none and ends in a table scan, index scan or projection; its source is the table exactly when it ends in one of the three scans, the local queue exactly for an aggregate, fusion or merge, and empty exactly for a command or projection |
| FragmentProperties.QueueEndIgnored | src/executor/fragment_builder.cpp:257-260 | A sink or source operator in the plan leaves the fragment and the ids as they are |
| FragmentProperties.IdsAreConsecutive | src/executor/fragment_builder.cpp:84-262 | Fragment ids are handed out once each, in preorder |
| FragmentProperties.RootSourceReplaced | src/executor/fragment_builder.cpp:41-43 | After the root's source is replaced it still tells whether there are children exactly when there are none |
| Planner.PlannerShapesPlan | src/executor/physical_planner.cpp:121-292 | The planner gives no unary operator a right child and puts every KNN scan of other than one task under a merge |
| Planner.PlannerKeepsNodes | src/executor/physical_planner.cpp:121-292 | Every logical node the planner reaches becomes one operator with its id, in the same place; a KNN scan split into tasks gets its merge above it |
| Planner.PlannedExactlyWhen | src/executor/physical_planner.cpp:121-292 | By logical node, which queries the planner takes and which it refuses |
| Planner.RunnableExactlyWhen | src/executor/physical_planner.cpp:121-292 | By logical node, exactly which queries get through planner and fragment builder: no set operation, join, cross product, dummy scan or view scan is reached, and sort, limit, filter, update, delete, aggregate and fusion have their input |
| Planner.PlanMirrorsQuery | src/executor/physical_planner.cpp:121-292 | The plan is the query's tree with, for each logical node, the kind of operator that stands for it and the node's id; a KNN scan carries the number of its tasks and stands below a merge exactly when that is not one |
| Planner.TaskCountIs | src/executor/operator/physical_knn_scan.cpp:221-233 | The task count is the number of tasks: one for each indexed segment, one for each block of every other |
| Planner.PlannedPlanRebuilt | src/executor/physical_planner.cpp:121-292 | Every planner-built plan the fragment builder accepts is rebuilt from its fragments |
| Planner.KnnScansAlone | src/executor/physical_planner.cpp:714-739 | In the fragments of a planner-built plan every KNN scan split into tasks is alone in a parallel fragment under a serial fragment that ends in its merge |
| QueueSource.QueueSourceState.constructor | src/executor/operator_state.cppm:330-331 | A new source has no counters, no error and an empty queue |
| QueueSource.QueueSourceState.SetTaskNum | src/executor/operator_state.cppm:333 | Sets one fragment's counter |
| QueueSource.QueueSourceState.Enqueue | src/common/blocking_queue.cppm:29-34 | Appends a message to the queue |
| QueueSource.QueueSourceState.MarkCompletedTask | src/executor/operator_state.cpp:27-36 | Counts one task down, with 64-bit wrap-around, and removes a counter at zero |
| QueueSource.QueueSourceState.GetData | src/executor/operator_state.cpp:41-79 | Delivers the oldest message, hands its block to the next operator and reports completion, or the unsupported-operator error; `QueueSource.MergeReceives`, `QueueSource.AfterPrefix` and `QueueSource.CompleteExactlyWhen` say what the next operator then holds |
| QueueSource.QueueSourceState.Process | src/executor/operator_state.cpp:41-79 | For any schedule of sends and reads, messages are delivered in the order sent, each once, with the counters, error, status and next operator's state the specification says after every read |
| QueueSource.QueueSourceState.Collect | src/executor/operator_state.cpp:41-79 | Over any schedule of a whole run, `GetData` returns true for the last message and for no other, and the first error is kept; after the i-th read a merge state holds exactly the i-th block sent, a fusion state all blocks so far by fragment, and either is complete exactly after the last |
| QueueSource.AfterPrefix | src/executor/operator_state.cpp:41-79 | After any prefix of any interleaving the counters equal the terminal messages still to come, the first error is kept, and a fusion state holds every block under its fragment in arrival order |
| QueueSource.NoUnderflow | src/executor/operator_state.cpp:27-36 | No delivery of an interleaving finds its counter missing or at zero |
| QueueSource.CompleteExactlyAtEnd | src/executor/operator_state.cpp:58-78 | The source is complete after the last message of a whole run and after no earlier one |
| QueueSource.CompleteExactlyWhen | src/executor/operator_state.cpp:58-78 | After any part of any interleaving the next operator's input is complete exactly when every task of every fragment has sent its terminal message |
| QueueSource.MergeReceives | src/executor/operator_state.cpp:62-67 | A merge state holds the block of the message delivered last, complete exactly when no counter is left |
| QueueSource.TerminalIsLast | src/executor/operator_state.cpp:47-57 | Of a task's n blocks exactly the last is terminal, and an error always is |
| WalLog.WalkBackMeetsEveryRecord | benchmark/wal/asio_wal.cpp:211-237 | Reading the trailing size and stepping back meets every record boundary, passes every image and ends at offset zero |
| WalLog.WalkBackOver | benchmark/wal/asio_wal.cpp:171-174 | Whatever the file held before, walking back passes every appended record and then goes on in it |
| WalLog.ImageCarriesLsn | benchmark/wal/asio_wal.cpp:214-221 | The LSN field of an image reads the LSN of its record |
| WalLog.LittleEndianAt | benchmark/wal/asio_wal.cpp:211-237 | Byte i of a number in the log weighs 256^i |
| WalLog.NumbersStartAgain | benchmark/wal/asio_wal.cpp:113-117 | A numbered log appended to another is numbered throughout exactly when one of them is empty and the other is numbered |
| Wal.StepInv | benchmark/wal/asio_wal.cpp:184-263 | Every atomic step of a session or of the flush keeps the invariant, and a commit finds its transaction |
| Wal.RunInv | benchmark/wal/asio_wal.cpp:184-263 | The invariant holds in every state of every run |
| Wal.EntriesConserved | benchmark/wal/asio_wal.cpp:184-254 | Submitted entries are the committed ones and the three queues, in order |
| Wal.LogWalk | benchmark/wal/asio_wal.cpp:171-237 | In every run, walking the file back passes every record this manager wrote and then goes on in what the file held when it was opened |
| Wal.LogNumbered | benchmark/wal/asio_wal.cpp:171-237 | In every run on a file that held a log, walking back meets every record of both, this manager's j-th record carries LSN j, and the i-th record of the file carries i throughout exactly when the file held none, or was so numbered and none was added |
| Wal.CommitsFollowLog | benchmark/wal/asio_wal.cpp:238-252 | In every run commits are a prefix of the synced log, each transaction once, with the LSN it keeps |
| Wal.CommitFindsTxn | benchmark/wal/asio_wal.cpp:142-155 | The transaction a commit looks up is always active |
| Wal.CommittedNotActive | benchmark/wal/asio_wal.cpp:142-155 | In every run a committed transaction is no longer active |
| Wal.StopTakesNoMore | benchmark/wal/asio_wal.cpp:180-191 | In every run, after a stop only entries already on their way before it are still taken |
| Wal.AllCommitted | benchmark/wal/asio_wal.cpp:238-261 | When a checkpoint is decided, all that was written is committed and its LSN is the last one |
| Wal.CheckpointsCovered | benchmark/wal/asio_wal.cpp:255-263 | A posted checkpoint covers only entries committed, hence synced; later ones never go back |
| Wal.CheckpointsKeepUp | benchmark/wal/asio_wal.cpp:253-263 | Between flushes, once a checkpoint was posted, fewer than ten committed entries lie beyond the last one |
| Wal.HistoryGrows | benchmark/wal/asio_wal.cpp:184-263 | What is submitted, written, synced, committed or posted stays so |
| WalFlush.WalManager.constructor | benchmark/wal/asio_wal.cpp:166-177 | A new manager is an initial state, whatever its uninitialised counter and the file hold |
| WalFlush.WalManager.SessionStep | benchmark/wal/asio_wal.cpp:184-191 | The manager's fields follow one session step |
| WalFlush.WalManager.CommitTxn | benchmark/wal/asio_wal.cpp:142-155 | The transaction is no longer active and keeps the LSN of its record |
| WalFlush.WalManager.WriteFrontEntry | benchmark/wal/asio_wal.cpp:211-237 | Numbers the entry, writes its image and size, and moves it to the third queue |
| WalFlush.WalManager.WriteBatch | benchmark/wal/asio_wal.cpp:211-237 | The write loop is the specification's, whatever sessions do between two writes |
| WalFlush.WalManager.CommitBatch | benchmark/wal/asio_wal.cpp:246-253 | The commit loop is the specification's, whatever sessions do between two commits |
| WalFlush.WalManager.Flush | benchmark/wal/asio_wal.cpp:198-263 | The whole flush is the specification's, for any interference; what it returns is exactly the checkpoint it posted |
| WalFlush.ReopenedLog | benchmark/wal/asio_wal.cpp:171-221 | After every non-empty earlier log, writing any first entry reaches a state whose file is not numbered throughout |
| WalFlush.FlushReaches | benchmark/wal/asio_wal.cpp:198-263 | A flush takes a reachable state to a reachable one |
| WalFlush.FlushCommitsQueue | benchmark/wal/asio_wal.cpp:198-263 | A running flush writes at least what was queued, after what was there, and commits the whole log; a checkpoint it posts covers exactly that; a stopped one changes nothing |
| WalFlush.PostsExactlyWhen | benchmark/wal/asio_wal.cpp:255-263 | A running flush posts a checkpoint, of the whole log, exactly when the interval has elapsed or the counter plus what it wrote is ten or more; the counter is then zero, and otherwise that sum |
| Crc.TableEntry | benchmark/common/crc.hpp:16-21 | A table entry is eight bit steps |
| Crc.MakeTable | benchmark/common/crc.hpp:15-22 | The table holds the entry of every byte |
| Crc.MakeCRC | benchmark/common/crc.hpp:29-36 | The table-driven loop computes, for every buffer, the checksum of clause 3.2.9 of IEEE 802.3: the message times x^32 with its first 32 bits complemented, modulo the generator, complemented, each byte low bit first and the highest power in the lowest bit |
| Crc.CrcIsIeee | benchmark/common/crc.hpp:29-41 | The reflected bit-at-a-time form with its two constants is that definition by long division, for every buffer |
| Crc.DivisionExact | benchmark/common/crc.hpp:29-41 | The long division is one: every dividend is its quotient times the generator plus its remainder, of degree below 32 |
| Crc.AllOnes | benchmark/common/crc.hpp:41 | The initial remainder and the final xor value are 32 ones |
| Crc.EmptyCrc | benchmark/common/crc.hpp:29-36 | The checksum of no bytes is zero |
| Crc.TableStep | benchmark/common/crc.hpp:33-34 | One table lookup equals eight bit steps |
| Crc.FeedAppend | benchmark/common/crc.hpp:32-35 | Resuming from the state after any prefix gives the same state |
| Crc.StepInjective | benchmark/common/crc.hpp:19 | A bit step is injective for this polynomial |
| Crc.PolynomialIsIeee | benchmark/common/crc.hpp:39-41 | The constant is the generator polynomial of clause 3.2.9 of IEEE 802.3, bit by bit |
| Crc.BurstDetected | benchmark/common/crc.hpp:29-41 | Two different buffers of equal length whose bits differ only within 32 consecutive bits have different CRCs |
| Crc.FourByteWindowDetected | benchmark/common/crc.hpp:29-41 | So have two that differ only within four consecutive bytes |
| ExpressionTransformer.SplitExpressionByDelimiter | src/expression/expression_transformer.cpp:37-81 | The work-queue loop terminates and collects what `ExpressionTransformer.SplitIsBreadthFirst` spells out |
| ExpressionTransformer.ComposeExpressionWithDelimiter | src/expression/expression_transformer.cpp:55-65 | The loop is a left fold; nothing for an empty list |
| ExpressionTransformer.SplitIsMaximal | src/expression/expression_transformer.cpp:37-53 | Split returns exactly the maximal subtrees that are not delimiters |
| ExpressionTransformer.SplitIsBreadthFirst | src/expression/expression_transformer.cpp:37-81 | They are listed by depth, and left to right within a depth |
| ExpressionTransformer.TruthOrder | src/expression/expression_transformer.cpp:37-65 | The logic of the value statements: with false below null below true, a conjunction is the lesser of its sides and a disjunction the greater |
| ExpressionTransformer.CollectKeepsValue | src/expression/expression_transformer.cpp:37-53 | The parts combine to the value of the whole, in three-valued logic, on every row |
| ExpressionTransformer.ComposeAfterSplit | src/expression/expression_transformer.cpp:37-65 | Compose after split has the value of the original on every row |
| ExpressionTransformer.SplitAfterCompose | src/expression/expression_transformer.cpp:37-81 | Split after compose of two or more parts gives the reverse of parts 2 onward, then parts 0 and 1 |
| InPlace.RemoveRowHeaders | benchmark/embedding/helper.cpp:34-36 | The shifting loop leaves the rows without headers at the front and the rest as it was |
| InPlace.CompactedAt | benchmark/embedding/helper.cpp:35-36 | Element i*d+j is original element i*(d+1)+1+j |
| InPlace.NarrowInPlace | src/network/thrift_server.cpp:917-922 | The loop over one memory leaves the narrowed values at the front and the rest as it was |
| InPlace.NarrowedAt | src/network/thrift_server.cpp:920-922 | Float slot i is the narrowing of original double i |

## Left out

- Queue: unlinking and freeing a handled buffer in the middle of the chain (`benchmark/common/mpsc_queue.h:196-208`); the scan moves on as in the other branch, which gives the same result of that call. Giving up at the tail in the same branch is modelled. The walk-back assumes that no buffer was unlinked.
- Queue: producer steps in the middle of a `dequeue` call, memory reclamation and weak memory orders. A freed buffer stays readable.
- Queue: beyond the limit only where writes go is stated, not what `dequeue` then returns.
- BufferWriters.BufferWriter.Flush: does not model a write that fails (`src/network/buffer_writer.cpp:129-135`), whether because the client closed or for another error; every `Send` method and the connection inherit this.
- Wire layer: read errors other than the client closing, strings of 4 GiB and more, unsupported column types, and what extended-query commands would have to do with their bodies.
- Wire layer: `BufferReader::read_string()` without arguments, which nothing in the repository calls.
- Wire layer: logging, sessions and the execution of the query itself.
- Planner: EXPLAIN, the failure of an index lookup while a KNN scan is planned, and the contents of operators other than their kind, id and task count.
- Planner: a view scan gives a null operator (`src/executor/physical_planner.cpp:210-212`); the model calls it an error.
- Fragments: EXPLAIN fragments.
- Queue source: the capacity of the blocking queue, which only delays senders.
- WAL: agreement of the checksum with the bytes on disk (the LSN is assigned after the checksum is taken), write errors, timers, and overflow of the checkpoint counter.
- WAL: the checkpoint itself, which only waits.
- WAL: the removal from the active transactions outside the lock (`benchmark/wal/asio_wal.cpp:151`), a data race; a commit is one atomic step.
- CRC: instances of the template other than CRC32IEEE.
- Expressions: the recursive `VisitExpression` overload.
- The schedulers, generated lexers and parsers, printers, configuration, the Python SDK and the rest of the Thrift handlers.
