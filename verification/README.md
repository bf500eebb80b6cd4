# vtrc: a verified model of the RPC stack

vtrc is a library for remote procedure calls over a byte stream. This project models its four intricate
parts in Dafny and proves what they are for.

- **The byte stream.** `SizePack`, `DataQueue`, `Erseefor`, `Crc32`, `Lowlevel` and `WriteQueue` model the
  size codec, the incremental frame parser, RC4, CRC-32, packing and popping of messages, and the write queue
  with partial writes; `EndToEnd` composes them into one direction of a ready connection, and `Corruption` alters
  a message in it. The main results are `EndToEnd.Delivery` and `Corruption.AlteredStops`.
- **The handshake.** `Handshake` is a transition system of client, server and the messages between them, with
  symbolic hashes, keys and ciphers; a packet opens exactly if its hash and cipher position are its reader's.
  `HandshakeObjects` has the two sides as objects whose stage methods are proved equal to the transitions;
  `HandshakeTraffic` follows application messages across the switch to the ready stage.
- **Calls.** `Rpc` is a transition system of two nodes with their slots, context stacks, pool, closures and
  channels, one step for each critical section; `RpcSafety` and `RpcSteps` hold its invariant, `RpcResults`
  what follows in every run, `RpcWaits` how a wait ends, `RpcFates` what becomes of a request and what its
  answer says, `RpcRequests` that no request is lost, `RpcObjects` the dispatch and wait loops. `RpcContexts`
  joins many clients to one server, whose threads they share. `ConditionQueues` models the slots
  themselves below the level of one lock, `CallStack` the thread's context stack on the heap, `Admission` the
  server's counter of active calls.
- **Structures that must agree with a simple account.** `LinkedList` and `Observer` (the observer over the
  hand-written list, with `ObserverObjects` its loops on the heap), and `HttpText`, `HttpHeader`, `HttpUnits`
  and `HttpObjects` (the HTTP form of messages).

`Bytes`, `Sequences` and `Wrappers` hold octets, words, facts about sequences and values that may be missing.

Code that works step by step is a class or a method with loops, proved equal to a function of its inputs or old
state; what the library promises is proved about those functions. Protocols are total step functions folded
over arbitrary sequences of steps, so that a theorem about `Exec` is about every run; a step that is not
possible changes nothing.

## What the code does differently from what one might expect

The model follows the code in each case.

- The server's accessor `close` only sets a flag that nobody reads and calls a setup object's empty `close`
  (lib/vtrc/server/protocol-layer-s.cpp:142-148), so a handshake message with a bad hash, or a selection with
  an unknown hash, does not close the connection. `Handshake` keeps it open. With unequal session keys both sides
  end up open and waiting, with no message on the way (`Handshake.NeverStuck`, `Handshake.OutcomeStays`).
- The client takes a server call with id 0 for a message to all its slots
  (lib/vtrc/client/protocol-layer-c.cpp:182-190). The server's 64-bit counter reaches 0 at its call number
  2^63 - 50; `RpcResults.ZeroIdIsBroadcast` shows that this call, and no other below 2^63, lands in every slot.
  The runs of `Rpc` therefore have fewer than 2^63 calls of the client and fewer than 2^63 - 50 of the server, and
  `RpcResults.LimitIsSharp` shows that one more is too many.
- The admission counter is an unsigned 32-bit integer. For every bound but 2^32 - 1 the number of active calls
  stays within the bound (`Admission.WithinBound`); with that bound it does not (`Admission.BoundFailsAtTheTop`).
- A call without a waiting caller that fails before its service is entered never gives its place back, nor does
  one whose holder outlives the connection: phase `Leaked`. `Admission.CallsLeak` gives a run,
  `Admission.LeakedStays` shows that the place is lost for good, and `Admission.CanEmptyIff` that the counter can
  come back to zero exactly if no call has leaked.
- The context a callback takes its target from is the thread's, whatever connection it is of
  (lib/vtrc/common/rpc-channel.cpp:203), and every client numbers its calls from 103. So a handler of one client's
  call that uses a channel with context to another client, as a broadcast channel does, can put its callback into
  the slot of that client's call of the same number (`RpcContexts.StrayLands`). It goes to the right call exactly
  if the channel leads to the connection of the context (`RpcContexts.MeantIff`, `RpcContexts.AllMeantIff`).
- `packed_length(0)` is 0 although `pack(0)` writes one octet (`SizePack.PackedLengthVarint`).
- A read clears the flag of a cancellation when it enters (lib/vtrc/common/condition-queues.h:163), and so takes
  the cancellation back from a read that waits on the same queue and has not woken yet
  (`ConditionQueues.CancelForgotten`). Without such a read every waiting one can return, canceled
  (`ConditionQueues.CancelWakes`).
- A service closure answers even a caller that does not wait; that answer finds no slot and is dropped.

## Model

| member | source | states |
|---|---|---|
| `EndToEnd.Delivery` | lib/vtrc/common/lowlevel-protocol-default.cpp:118-231 | for every run of post, partial writes, errors, close and arbitrary chunks: what the receiver popped is a prefix of what was sent, its cipher is where the sender's was after exactly those messages, and once all octets have arrived everything was popped if and only if every payload with its hash fits the maximum length, with both ciphers equal |
| `EndToEnd.CanDrainIff` | lib/vtrc/common/transport/stream-impl.h:220-293 | from a reachable state some continuation brings every octet to the receiver exactly if the transport is open, or nothing is queued, or only the message being written is left |
| `EndToEnd.CanDeliver` | lib/vtrc/common/lowlevel-protocol-default.cpp:145-165 | from such a state, if every payload fits, some continuation delivers exactly what was sent, with both ciphers equal |
| `EndToEnd.EveryRun` | lib/vtrc/common/lowlevel-protocol-default.cpp:145-165 | octets on the way and in the receive buffer are at every step exactly the frames of the messages not popped yet |
| `EndToEnd.ReadHandler` | lib/vtrc/common/lowlevel-protocol-default.cpp:145-165 | one read on a ready connection: parse, then dispatch, as the receiver of the end-to-end system does it |
| `Corruption.AlteredStops` | lib/vtrc/common/lowlevel-protocol-default.cpp:145-231 | among messages that all fit, one altered within four consecutive octets of its hash or of its data, whatever the cipher and the chunks: what is delivered is a prefix of what was sent before it, and once it has arrived, all of that, with the receiver closed |
| `Lowlevel.ChangedRefused` | lib/vtrc/common/lowlevel-protocol-default.cpp:208-231 | a sealed body changed within four consecutive octets, of its hash or of its data, does not open, whatever the cipher |
| `Lowlevel.BurstRefused` | lib/vtrc/common/lowlevel-protocol-default.cpp:208-231 | a body that deciphers to the hash of other data, which differs within four consecutive octets, does not open |
| `Lowlevel.Rc4Stream` | lib/vtrc/common/lowlevel-protocol-default.cpp:118-143 | with RC4 the bodies of all messages together are their hashes and data, one after another, enciphered in one stretch |
| `Lowlevel.KeyedStream` | lib/vtrc/common/lowlevel-protocol-default.cpp:118-143 | with any other cipher each body is its hash and data under the pad for the lengths of the messages before it |
| `Lowlevel.PlainStream` | lib/vtrc/common/lowlevel-protocol-default.cpp:118-143 | without a cipher each body is its hash and data |
| `Lowlevel.Protocol.PackMessage` | lib/vtrc/common/lowlevel-protocol-default.cpp:118-143 | clear length, then the enciphered hash and data; the transformer moves on by the length of the body |
| `Lowlevel.Protocol.ProcessData` | lib/vtrc/common/lowlevel-protocol-default.cpp:145-165 | the buffer and the queue change as parsing the old buffer with the chunk says; the stage runs only if a message was completed |
| `Lowlevel.Protocol.Configure` | lib/vtrc/common/lowlevel-protocol-default.cpp:83-87 | the bound on a message changes and nothing else |
| `Lowlevel.Protocol.PopRawMessage` | lib/vtrc/common/lowlevel-protocol-default.cpp:208-231 | the oldest message opened with hash checker and revertor; message and cipher position are spent even when the check fails |
| `Lowlevel.Protocol.DispatchAll` | lib/vtrc/client/protocol-layer-c.cpp:231-249 | pops until the queue is empty or a message is bad |
| `Lowlevel.Codec.OpenSeal` | lib/vtrc/common/lowlevel-protocol-default.cpp:172-186 | a body sealed in a state opens in that state to the same data and leaves both in the same state |
| `Lowlevel.PopAllBodies` | lib/vtrc/common/lowlevel-protocol-default.cpp:208-231 | all bodies sealed one after another pop, in order, to the payloads and end in the sender's state |
| `SizePack.VarintRoundTrip` | lib/vtrc/common/sizepack-policy.h:112-146 | packing a 64-bit number takes 1 to 10 octets, and length and value are read back whatever follows |
| `SizePack.VarintProperPrefix` | lib/vtrc/common/sizepack-policy.h:93-103 | no proper prefix of a packed number has a length |
| `SizePack.VarintPrefixOnly` | lib/vtrc/common/sizepack-policy.h:93-103 | a length once readable, and its value, do not depend on later octets |
| `SizePack.VarintMinimal` | lib/vtrc/common/sizepack-policy.h:112-146 | unpacking then packing gives the octets back exactly when they were written without superfluous zero groups |
| `SizePack.PackVarint` | lib/vtrc/common/sizepack-policy.h:112-121 | the string form of pack writes the reference encoding |
| `SizePack.PackVarintTo` | lib/vtrc/common/sizepack-policy.h:123-132 | the buffer form of pack writes the same octets and touches nothing else |
| `SizePack.LengthVarint` | lib/vtrc/common/sizepack-policy.h:93-103 | the loop finds the first octet without continuation bit, or 0 |
| `SizePack.PackedLengthVarint` | lib/vtrc/common/sizepack-policy.h:105-110 | equals the packed length for every number but 0, where it is 0 and pack writes one octet |
| `SizePack.UnpackVarint` | lib/vtrc/common/sizepack-policy.h:135-146 | the shifting loop computes the value modulo 2^64 |
| `SizePack.FixintRoundTrip` | lib/vtrc/common/sizepack-policy.h:38-79 | the fixed-width form is eight octets and read back whatever follows |
| `SizePack.FixintValueIsWord` | lib/vtrc/common/sizepack-policy.h:70-79 | eight octets read as a 64-bit number |
| `SizePack.PackFixint` | lib/vtrc/common/sizepack-policy.h:49-57 | string form of the fixed-width pack |
| `SizePack.PackFixintTo` | lib/vtrc/common/sizepack-policy.h:59-67 | buffer form of the fixed-width pack, nothing else written |
| `SizePack.UnpackFixint` | lib/vtrc/common/sizepack-policy.h:70-79 | the loop over at most eight octets computes the big-endian value |
| `DataQueue.ChunkIndependent` | lib/vtrc/common/data-queue.cpp:182-231 | parsing a then b yields the messages, leftover and verdict of parsing a with b appended, over-long and malformed lengths included, for either size policy |
| `DataQueue.ChunkingIrrelevant` | lib/vtrc/common/data-queue.cpp:182-231 | the same for any number of chunks |
| `DataQueue.ParseSettles` | lib/vtrc/common/data-queue.cpp:228-231 | when processing stops nothing more can be cut from what is left |
| `DataQueue.ParsePrefix` | lib/vtrc/common/data-queue.cpp:182-226 | any prefix of a run of frames parses to the messages whole in it, up to the first one that is too long |
| `DataQueue.CutPartialFrame` | lib/vtrc/common/data-queue.cpp:182-226 | a frame not yet complete is waited for |
| `DataQueue.Parser.ProcessOne` | lib/vtrc/common/data-queue.cpp:182-226 | one cut: message appended and its octets consumed, or an error, or nothing |
| `DataQueue.Parser.Process` | lib/vtrc/common/data-queue.cpp:228-231 | the loop ends and computes the parse of the buffer |
| `DataQueue.Serializer.Process` | lib/vtrc/common/data-queue.cpp:149-165 | the collected data becomes one framed message, or an error if it is too long |
| `DataQueue.OverlongRefused` | lib/vtrc/common/data-queue.cpp:182-200 | a length of more than ten octets is refused as invalid as soon as it ends, whatever follows |
| `DataQueue.EndlessWaits` | lib/vtrc/common/data-queue.cpp:182-200 | until it ends it is waited for |
| `DataQueue.LimitChange` | lib/vtrc/common/data-queue.cpp:78-81 | a limit changed between two chunks gives the outcome of the whole under the new limit exactly if every message cut under the old one fits the new |
| `DataQueue.SerializerRoundTrip` | lib/vtrc/common/data-queue.cpp:130-232 | frames parse back to exactly their bodies if and only if every body fits |
| `Erseefor.RunKeepsPermutation` | lib/vtrc/common/erseefor.h:61-69 | the state stays a permutation of 0..255 |
| `Erseefor.FreshIsPermutation` | lib/vtrc/common/erseefor.h:41-69 | so it is after keying and dropping |
| `Erseefor.CryptUndoes` | lib/vtrc/common/erseefor.h:71-83 | a cipher in the same state undoes a transformation of any data |
| `Erseefor.CryptConcat` | lib/vtrc/common/erseefor.h:71-83 | transforming a with b appended is transforming a, then b |
| `Erseefor.RunSum` | lib/vtrc/common/erseefor.h:61-83 | running m then n steps is running m + n, keystream included |
| `Erseefor.StillExample` | lib/vtrc/common/erseefor.h:41-83 | with the key whose schedule moves nothing, four zeros are enciphered as 2, 5, 7, 13 |
| `Bytes.XorDigit` | lib/vtrc/common/erseefor.h:81 | digit by digit in base two: a digit of the result is 1 exactly if the two differ |
| `Erseefor.FreshGoesOn` | lib/vtrc/common/transformer/erseefor.cpp:14-24 | a fresh transformer enciphers as the keyed cipher does after any 3072 octets |
| `Erseefor.RunInjective` | lib/vtrc/common/erseefor.h:61-69 | two ciphers are in step after n octets exactly if they were in step before |
| `Erseefor.Cipher.MixKey` | lib/vtrc/common/erseefor.h:55-58 | the key schedule loop computes the keyed state |
| `Erseefor.Cipher.Drop` | lib/vtrc/common/erseefor.h:61-69 | dropping reaches the state transforming as many octets reaches |
| `Erseefor.Cipher.Transform` | lib/vtrc/common/erseefor.h:71-83 | the array is enciphered in place and the state moves on by its length |
| `Erseefor.CreateTransformer` | lib/vtrc/common/erseefor.h:36-69 | a cipher keyed and with its first 3072 octets dropped |
| `Crc32.TableIs` | lib/vtrc/common/hash/crc32-impl.h:46-119 | each of the 256 table entries is eight bit-serial steps of its index |
| `Crc32.UpdateIs` | lib/vtrc/common/hash/crc32-impl.h:121-125 | the table-driven update is eight bit-serial polynomial steps (section 8 of RFC 1952) |
| `Crc32.CheckValue` | lib/vtrc/common/hash/crc32-impl.h:31-42 | the checksum of the digits 1 to 9 is CB F4 39 26, highest octet first |
| `Crc32.Residue` | lib/vtrc/common/hash/crc32-impl.h:31-42 | the checksum of any data followed by its own checksum, lowest octet first, is 21 44 DF 1C |
| `Crc32.CheckAcceptsGet` | lib/vtrc/common/hash/crc32-impl.h:17-42 | check accepts what get wrote |
| `Crc32.BurstDetected` | lib/vtrc/common/hash/crc32-impl.h:17-28 | check rejects data that differs from the original within any four consecutive octets, for every length |
| `Crc32.OneOctetDetected` | lib/vtrc/common/hash/crc32-impl.h:17-28 | check rejects data that differs in exactly one octet |
| `Crc32.RunInjective` | lib/vtrc/common/hash/crc32-impl.h:20-22 | after the same data two registers are equal exactly if they were equal before |
| `Crc32.GetHash` | lib/vtrc/common/hash/crc32-impl.h:31-42 | the loop and the four output octets |
| `Crc32.CheckHash` | lib/vtrc/common/hash/crc32-impl.h:17-28 | the comparison of the first four octets, nothing else of the argument read |
| `WriteQueue.EveryRun` | lib/vtrc/common/transport/stream-impl.h:170-293 | in every run: accepted octets and those still queued are the messages in post order; one write at most is outstanding and covers the unsent part of the front message; on-send closures fire once each, in order, on completion or failure; a not-on-send closure fires right after its own packing and before the next |
| `WriteQueue.Transport.Write` | lib/vtrc/common/transport/stream-impl.h:177-202 | packing, queueing and the immediate closure in one strand turn; a write is started only on an empty queue |
| `WriteQueue.Transport.WriteHandler` | lib/vtrc/common/transport/stream-impl.h:248-293 | partial write, completion and failure |
| `WriteQueue.Transport.StartWrite` | lib/vtrc/common/transport/stream-impl.h:170-174 | called with no write under way, so that one is outstanding at most; nothing is started once closed |
| `Handshake.Agreement` | lib/vtrc/client/connection-default.cpp:168-317 | with equal session keys or no key, in every reachable state each message on the way was packed with the hash and cipher its reader will use on it |
| `Handshake.ReadyAgreement` | lib/vtrc/server/connection/default.cpp:140-292 | when both sides are ready each transformer matches the peer's revertor; nobody is ready with unequal keys; the server is never ready if a key is required and none was selected; the client has the server's options |
| `Handshake.NeverStuck` | lib/vtrc/server/connection/default.cpp:201-341 | from every reachable state some continuation brings both sides to ready if the settings are compatible, both to closed if a required key is missing, and with unequal keys both to waiting, open, with nothing on the way |
| `Handshake.OutcomeStays` | lib/vtrc/server/connection/default.cpp:321-341 | the last two outcomes are final: no run changes anything any more, so with unequal keys only the init timeout, which is not part of the model, ends the exchange |
| `Handshake.ReadyIffCompatible` | lib/vtrc/server/connection/default.cpp:201-254 | some run makes both sides ready exactly if the keys are equal, or there is no key and none is required |
| `Handshake.EveryRun` | lib/vtrc/server/connection/default.cpp:256-292 | the phases of the exchange and who switches what in each |
| `HandshakeTraffic.Conserved` | lib/vtrc/common/lowlevel-protocol-default.cpp:254-267 | across the switch to ready, in both directions and every reachable state: what the peer has received, what is on the way and what waits to be packed are, in order, exactly the application messages sent |
| `HandshakeTraffic.ForeignEnds` | lib/vtrc/client/connection-default.cpp:331-350 | whatever comes in: a packet that does not open, or of another kind than the stage takes, closes the client, which from then on never becomes ready and hands nothing more on |
| `HandshakeTraffic.ForeignAtServer` | lib/vtrc/server/connection/default.cpp:326-341 | such a packet closes a ready server; one not ready hands nothing on, answers nothing and stays open, only flagged |
| `HandshakeObjects.ClientIface.HandleHello` | lib/vtrc/client/connection-default.cpp:263-317 | the client's answer to the hello: selection, checker at once, maker by the closure after packing |
| `HandshakeObjects.ClientIface.HandleSetup` | lib/vtrc/client/connection-default.cpp:170-224 | both ciphers keyed and the salts returned |
| `HandshakeObjects.ClientIface.HandleReady` | lib/vtrc/client/connection-default.cpp:226-261 | ready, or the error stage |
| `HandshakeObjects.ClientIface.ProcessStage` | lib/vtrc/client/connection-default.cpp:331-347 | pop, stage function, switch to ready |
| `HandshakeObjects.ClientIface.PackNext` | lib/vtrc/client/connection-default.cpp:160-166 | a message is packed, and only then does its closure switch the hash maker |
| `HandshakeObjects.ServerIface.HandleSelection` | lib/vtrc/server/connection/default.cpp:256-292 | hash switched both ways before the answer is sent, or the connection flagged |
| `HandshakeObjects.ServerIface.SetTransformer` | lib/vtrc/server/connection/default.cpp:201-254 | no transformer, revertor keyed, or refusal |
| `HandshakeObjects.ServerIface.HandleTransformer` | lib/vtrc/server/connection/default.cpp:165-199 | transformer keyed before the ready message |
| `HandshakeObjects.ServerIface.SetReady` | lib/vtrc/server/connection/default.cpp:140-163 | the ready message with the session options |
| `HandshakeObjects.ServerIface.ProcessStage` | lib/vtrc/server/connection/default.cpp:326-341 | pop, stage function, switch to ready; a bad hash leaves the connection open |
| `RpcResults.NoCrossTalk` | lib/vtrc/client/protocol-layer-c.cpp:202-279 | over all runs of two nodes below the id limit: a slot holds only the peer's answer to that very call, callbacks the peer aimed at that call, or broadcast system errors |
| `RpcResults.ReturnsOwnAnswer` | lib/vtrc/common/rpc-channel.cpp:355-424 | a wait returns true only with the peer's error-free answer to its own request, however callbacks nest |
| `RpcResults.NoLostReply` | lib/vtrc/common/protocol-layer.cpp:399-408 | an answer given while its caller waits is in the channel, between look-up and push, or in the caller's slot, which exists |
| `RpcResults.SlotWhileHeld` | lib/vtrc/common/rpc-channel.cpp:367-384 | a slot exists exactly from its registration until its caller leaves |
| `RpcResults.BoundedRecursion` | lib/vtrc/common/protocol-layer.cpp:611-619 | a service method runs only within max_stack_size, over all interleavings of waits and insertions |
| `RpcResults.OnceEach` | lib/vtrc/server/protocol-layer-s.cpp:206-264 | no request is handled twice or answered twice, and every request handled or answered is one the peer made |
| `RpcResults.EveryRun` | lib/vtrc/common/protocol-layer.cpp:284-287 | the invariant of both nodes and both channels in every reachable state |
| `RpcResults.ZeroIdIsBroadcast` | lib/vtrc/client/protocol-layer-c.cpp:182-190 | the server's call number 2^63 - 50 has id 0 and lands in every slot of the client, where nothing of its kind belongs; no other call below 2^63 does |
| `RpcResults.LimitIsSharp` | lib/vtrc/client/protocol-layer-c.cpp:182-190 | with one server call more allowed, a run from the start puts a request of the server, none of the three kinds, into the slot of a waiting client call |
| `RpcFates.AnswersTell` | lib/vtrc/common/protocol-layer.cpp:496-722 | in every run an answer carries the error of its request's closure, exception or refusal, and a value exactly if there is none, the one the service gave, and no options if the context was lost; a started request is being handled or has its fate, and a fate is answered exactly if it is to be told |
| `RpcFates.ReturnsValue` | lib/vtrc/common/rpc-channel.cpp:383-424 | a wait that returns true returns the value the peer's service gave in its closure without an error, so no failed, throwing or refused call returns true |
| `RpcFates.StepFits` | lib/vtrc/common/protocol-layer.cpp:496-722 | what each step decides of a request agrees with what it starts, closes and answers |
| `RpcRequests.NoLostRequest` | lib/vtrc/server/protocol-layer-s.cpp:206-298 | in every run what a side has sent is in the channel, in the other side's pool or started there; a callback may be on its way into its slot or in it, or lost with a call that was left |
| `RpcResults.SystemErrorReachesAll` | lib/vtrc/common/protocol-layer.cpp:743-759 | a system error becomes the last message of every slot and nothing else changes in them |
| `RpcWaits.WaitCanEnd` | lib/vtrc/common/rpc-channel.cpp:383-423 | from every reachable state in which the peer has answered a call that still waits, moves of the caller's side alone let it read the message that ends the wait: the answer, unless a system error stands in the slot before it |
| `RpcWaits.CanReturnIff` | lib/vtrc/common/rpc-channel.cpp:383-423 | such a wait can still return, whatever both sides do next, if and only if its answer carries no error and no system error stands in its slot before it |
| `RpcWaits.Ends` | lib/vtrc/common/rpc-channel.cpp:383-423 | the moves that end a wait: the read handler brings the answer into the slot, what stands above the caller is left, what stands before the answer is read |
| `RpcWaits.RunDoomed` | lib/vtrc/common/rpc-channel.cpp:396-404 | once a system error stands first in its slot, or it has left, a wait never returns |
| `RpcWaits.RunAnswers` | lib/vtrc/common/protocol-layer.cpp:496-540 | in every continuation an answer once given stays what it was |
| `RpcContexts.EachConnection` | lib/vtrc/common/protocol-layer.cpp:284-408 | with any number of clients each connection of the server runs as two nodes do alone |
| `RpcContexts.SharedDepth` | lib/vtrc/common/protocol-layer.cpp:300-326 | a server thread has one stack for all connections, whose frames are theirs in order; a handler stands within max_stack_size counted over all of them, and only a message of its own connection is handled above a waiting call |
| `RpcContexts.CallMade` | lib/vtrc/common/rpc-channel.cpp:198-244 | a call is made under the next id of its connection, with the options its caller chose and the target of the current or the stored context whatever connection that is of, and as a direct call without one |
| `RpcContexts.MeantIff` | lib/vtrc/common/rpc-channel.cpp:217-240 | in every run of a server and its clients, a callback in the slot of a client's call was made in the context of a call of that number, and it is this call's if and only if the channel led to the connection of the context |
| `RpcContexts.AllMeantIff` | lib/vtrc/common/rpc-channel.cpp:217-240 | all callbacks made in a run name the calls in whose contexts they were made if and only if every call went over a channel to the connection of the context it took its target from |
| `RpcContexts.StrayLands` | lib/vtrc/server/channels.cpp:317-327 | with two clients a run from the start puts a callback made while one client's first call is handled into the slot of the other client's first call |
| `RpcContexts.EveryHubRun` | lib/vtrc/common/call-context.cpp:49-52 | the invariant of all connections, shared threads, channels and recorded contexts in every run |
| `Rpc.CallIdsDiffer` | lib/vtrc/common/protocol-layer.cpp:284-287 | fewer than 2^63 calls of one side have different 64-bit ids |
| `RpcSteps.StepKept` | lib/vtrc/common/rpc-channel.cpp:355-424 | each atomic step of either node keeps the invariant on both sides |
| `RpcSteps.BeginKept` | lib/vtrc/common/rpc-channel.cpp:198-244 | numbering a call and choosing its type and target |
| `RpcSteps.RegisterKept` | lib/vtrc/common/protocol-layer.cpp:399-408 | the slot is there before the request is sent |
| `RpcSteps.ReadKept` | lib/vtrc/common/rpc-channel.cpp:392-421 | one message read from the caller's slot: error, own answer, or a callback run as a local call |
| `RpcSteps.DeliverKept` | lib/vtrc/server/protocol-layer-s.cpp:266-298 | one message dispatched: call, callback with or without its slot, or answer |
| `RpcSteps.MakeLocalCallKept` | lib/vtrc/common/protocol-layer.cpp:671-722 | a local call started, or refused for its depth with an error answer |
| `RpcSteps.RunClosureKept` | lib/vtrc/common/protocol-layer.cpp:496-540 | the closure of a service method sends the answer |
| `RpcSteps.ThrowKept` | lib/vtrc/common/protocol-layer.cpp:684-722 | what a handler throws becomes an error answer if the caller waits |
| `RpcSteps.SystemErrorKept` | lib/vtrc/common/protocol-layer.cpp:743-759 | a system error reaches every slot |
| `RpcObjects.DispatchedKept` | lib/vtrc/server/protocol-layer-s.cpp:266-298 | the whole dispatch loop keeps the invariant and leaves nothing undispatched |
| `RpcObjects.WaitsForOwnAnswer` | lib/vtrc/common/rpc-channel.cpp:392-421 | over a slot of any reachable state, the wait loop runs only callbacks aimed at it and ends on its own answer |
| `RpcObjects.WaitedFirst` | lib/vtrc/common/rpc-channel.cpp:392-421 | a wait ends on the first error or answer, having run all messages before it |
| `RpcObjects.ProtocolLayer.NextIndex` | lib/vtrc/common/protocol-layer.cpp:284-287 | the counter moves by two modulo 2^64 |
| `RpcObjects.ProtocolLayer.PushRpcMessage` | lib/vtrc/common/condition-queues.h:298-313 | appended to the slot if it exists, and said so |
| `RpcObjects.ProtocolLayer.ProcessCall` | lib/vtrc/server/protocol-layer-s.cpp:230-240 | posted, refused as busy, or on a client with id 0 broadcast |
| `RpcObjects.ProtocolLayer.OnRpcProcess` | lib/vtrc/client/protocol-layer-c.cpp:231-279 | the loop dispatches every received message |
| `RpcObjects.ProtocolLayer.DispatchOne` | lib/vtrc/client/protocol-layer-c.cpp:251-277 | the switch on the message type |
| `RpcObjects.ProtocolLayer.CallAndWait` | lib/vtrc/common/rpc-channel.cpp:386-423 | the wait loop as the specification of a wait says |
| `Admission.WithinBound` | lib/vtrc/server/protocol-layer-s.cpp:201-240 | for every bound below 2^32 - 1 and every run: admitted calls not completed stay within the bound, the counter is exact and never decremented at zero, a call is refused exactly if the bound is reached, and no call decrements twice |
| `Admission.CanEmptyIff` | lib/vtrc/common/protocol-layer.cpp:79-116 | for every bound below 2^32 - 1 and every reachable state: some continuation brings the counter to zero if and only if no call has leaked |
| `Admission.LeakedStays` | lib/vtrc/common/protocol-layer.cpp:79-116 | a call whose holder is gone without decrementing keeps its place for ever |
| `Admission.CallsLeak` | lib/vtrc/common/protocol-layer.cpp:671-741 | one call nobody waits for whose handling fails before its service is entered leaks, whatever the bound |
| `Admission.NoLeak` | lib/vtrc/common/protocol-layer.cpp:79-116 | a call whose caller waits, and whose connection outlives its holder, never leaks, in any run |
| `Admission.BoundFailsAtTheTop` | lib/vtrc/server/protocol-layer-s.cpp:230-240 | with the bound 2^32 - 1 the counter wraps and one call too many is admitted |
| `Admission.EveryRun` | lib/vtrc/common/protocol-layer.cpp:79-116 | the invariant over closures run, holders destroyed, exceptions and leaks in any order |
| `Admission.CallCounter.ProcessCall` | lib/vtrc/server/protocol-layer-s.cpp:230-240 | counts the call and admits it exactly if fewer than the bound are active |
| `Admission.CallCounter.CallDone` | lib/vtrc/server/protocol-layer-s.cpp:201-204 | one decrement of a positive counter |
| `CallStack.BoundedDepth` | lib/vtrc/common/protocol-layer.cpp:614-619 | along any nesting a service runs only at a depth within the limit, and is refused only beyond it |
| `CallStack.RefusedIffTooDeep` | lib/vtrc/common/protocol-layer.cpp:614-619 | without failing waits some call is refused exactly if the nesting exceeds the limit |
| `CallStack.ThreadContext.PushCallContext` | lib/vtrc/common/protocol-layer.cpp:300-308 | the pushed context points at the old top and counts one more |
| `CallStack.ThreadContext.PopCallContext` | lib/vtrc/common/protocol-layer.cpp:316-326 | the top goes, and the stack object with the last one |
| `CallStack.ThreadContext.MakeLocalCall` | lib/vtrc/common/protocol-layer.cpp:611-741 | a local call leaves the stack as it found it whatever its service does |
| `CallStack.ThreadContext.Execute` | lib/vtrc/common/rpc-channel.cpp:383-423 | any nesting of waits and local calls, errors included, restores the stack; its contexts keep depth and parent |
| `ConditionQueues.ReadsReturnTaken` | lib/vtrc/common/condition-queues.h:151-178 | over every run: the items the successful reads of a queue returned are, in order, exactly what was taken from it; what was written is that and what it holds; a read returned an item exactly if its code is SUCCESS |
| `ConditionQueues.CodeAgrees` | lib/vtrc/common/condition-queues.h:99-104 | the value of the wait, the pop and the result code, each decided by itself as in the code, agree |
| `ConditionQueues.RefinesEveryRun` | lib/vtrc/common/condition-queues.h:227-313 | over every run the queues seen through the keys are what the actions of its steps, in order, make of no queues |
| `ConditionQueues.TakesFront` | lib/vtrc/common/condition-queues.h:172-175 | an action that takes from a key is a read that returns the front of that key's queue |
| `ConditionQueues.Refines` | lib/vtrc/common/condition-queues.h:227-313 | every critical section of any interleaving does to the map from keys to queues exactly its one action, or nothing if its queue is no longer bound |
| `ConditionQueues.EveryRun` | lib/vtrc/common/condition-queues.h:195-201 | what was written to a queue is what was taken from it and then what it holds, erased or not |
| `ConditionQueues.ReadReturns` | lib/vtrc/common/condition-queues.h:151-178 | one read: SUCCESS exactly if the queue was neither canceled nor empty, and then the oldest item is removed and returned; CANCELED and TIMEOUT remove nothing; no other queue changes |
| `ConditionQueues.CancelWakes` | lib/vtrc/common/condition-queues.h:188-192 | once a queue is canceled or erased, in every continuation in which no other read enters it, every read waiting on it can return, and then reports CANCELED and takes nothing |
| `ConditionQueues.CancelForgotten` | lib/vtrc/common/condition-queues.h:151-178 | a read that enters before the waiting one wakes takes the cancellation back |
| `ConditionQueueObjects.QueueStore.AddQueue` | lib/vtrc/common/condition-queues.h:227-232 | an existing queue is kept |
| `ConditionQueueObjects.QueueStore.EraseQueue` | lib/vtrc/common/condition-queues.h:234-242 | the key goes and its waiters are canceled |
| `ConditionQueueObjects.QueueStore.Cancel` | lib/vtrc/common/condition-queues.h:264-269 | only the named queue is canceled, or the key is reported missing |
| `ConditionQueueObjects.QueueStore.WriteQueueIfExists` | lib/vtrc/common/condition-queues.h:298-313 | appended exactly if the key is there |
| `ConditionQueueObjects.QueueStore.WriteAll` | lib/vtrc/common/condition-queues.h:286-296 | appended to every queue; the count is their number |
| `ConditionQueueObjects.QueueStore.Read` | lib/vtrc/common/condition-queues.h:151-178 | the oldest item, a cancellation, a timeout or the missing key, with other threads writing and canceling during the wait |
| `ObserverObjects.Observers.Emit` | include/vtrc/common/observer/base.h:302-321 | an emission with arbitrary subscriptions and unsubscriptions before, between and after the turns runs exactly the expected slots and leaves exactly the expected slots live |
| `Observer.RunsIff` | include/vtrc/common/observer/base.h:308-319 | a slot in the list when the emission begins runs exactly if it is not unsubscribed before its turn |
| `Observer.RunsInOrder` | include/vtrc/common/observer/base.h:308-319 | slots run in order of subscription, none twice |
| `Observer.EmittedRight` | include/vtrc/common/observer/base.h:302-321 | the loop agrees with the plain account of what runs and what stays live |
| `Observer.ActAllKept` | include/vtrc/common/observer/base.h:82-87 | live = (list and added) without removed after every action, at any moment of an emission |
| `Observer.ClearedKept` | include/vtrc/common/observer/base.h:130-149 | dropping the removed slots changes nothing about which are live |
| `Observer.ClearCommutes` | include/vtrc/common/observer/base.h:130-149 | what others do between the taking of the removed ids and the filtering of the list has the effect it would have afterwards |
| `ObserverObjects.RemoveByIndex` | include/vtrc/common/observer/base.h:96-128 | from whichever end it searches, exactly the slot with the id goes |
| `ObserverObjects.ClearRemoved` | include/vtrc/common/observer/base.h:138-148 | the merge filters out exactly the removed ids |
| `ObserverObjects.Observers.Connect` | include/vtrc/common/observer/base.h:179-185 | a new id at the end of the added slots |
| `ObserverObjects.Observers.Unsubscribe` | include/vtrc/common/observer/base.h:82-87 | remembered as removed and taken from the added slots |
| `LinkedList.List.PushBack` | include/vtrc/common/details/list.h:259-270 | one node more at the end, all links consistent |
| `LinkedList.List.PushFront` | include/vtrc/common/details/list.h:272-283 | one node more at the front |
| `LinkedList.List.Unlink` | include/vtrc/common/details/list.h:131-152 | exactly that node goes; neighbours, ends and size follow |
| `LinkedList.List.Erase` | include/vtrc/common/details/list.h:231-240 | exactly that node goes and the next is returned; a null iterator changes nothing |
| `LinkedList.List.ReverseErase` | include/vtrc/common/details/list.h:219-229 | exactly that node goes and the previous is returned; a null iterator changes nothing |
| `LinkedList.List.SpliceBack` | include/vtrc/common/details/list.h:242-257 | all nodes of the other list follow this list's and the other is empty; a list spliced into itself stays as it is |
| `LinkedList.List.Swap` | include/vtrc/common/details/list.h:285-298 | the two lists exchange their nodes |
| `HttpUnits.StreamRoundTrip` | examples/hello-events-http/protocol/http-header.hpp:341-432 | error-free units with clean names, printed one after another and fed in any chunks, come out as that many messages with nothing left over, and each is read back as itself exactly if its numbers are 32-bit, its names fit a path and only the printed body is set |
| `HttpUnits.DispatchedIff` | lib/vtrc/server/protocol-layer-s.cpp:266-275 | such a stream is popped whole, in order, as the units sent if and only if every one of them can be represented |
| `HttpUnits.ExampleLines` | examples/hello-events-http/protocol/http-header.hpp:380-432 | the text of one call, line by line |
| `HttpUnits.ReadsBackIff` | examples/hello-events-http/protocol/http-header.hpp:341-378 | the exact condition for one message |
| `HttpUnits.PrintedTaken` | examples/hello-events-http/protocol/http-header.hpp:380-432 | a printed unit is cut at its last character, whatever came before |
| `HttpText.PathRoundTripIff` | examples/hello-events-http/protocol/http-header.hpp:17-41 | service and method come back from their path exactly if the service has no slash and no trailing dot and the method is not empty and has no dot or slash |
| `HttpText.HexRoundTrip` | examples/hello-events-http/protocol/http-header.hpp:231-315 | hex2bin undoes bin2hex on all octets |
| `HttpText.UnhexRoundTrip` | examples/hello-events-http/protocol/http-header.hpp:269-315 | bin2hex undoes hex2bin but for the case of the digits |
| `HttpText.NumberRoundTrip` | examples/hello-events-http/protocol/http-header.hpp:187-197 | a printed number converts back exactly if it is below the limit of the type |
| `HttpText.SignedNumber` | examples/hello-events-http/protocol/http-header.hpp:187-197 | a plus sign changes nothing, a minus sign counts down from the limit |
| `HttpHeader.ChunkIndependent` | examples/hello-events-http/protocol/http-header.hpp:137-150 | parsing a then b is parsing a with b appended |
| `HttpHeader.PushTakes` | examples/hello-events-http/protocol/http-header.hpp:137-150 | a push on a parser not done takes at least one character, and stops short only at the end of a message |
| `HttpHeader.PushIsTake` | examples/hello-events-http/server/main.cpp:97-106 | a push is the part of the stream up to the end of a message |
| `HttpHeader.TakeMessage` | examples/hello-events-http/protocol/http-header.hpp:84-122 | header lines, blank line and a body of the announced length make one message |
| `HttpHeader.BadLengthStops` | examples/hello-events-http/protocol/http-header.hpp:211-220 | if the announced length is no number the message fails and nothing after it is taken |
| `HttpHeader.FirstFieldCounts` | examples/hello-events-http/protocol/http-header.hpp:84-100 | of several fields with one name the value of the first counts |
| `HttpObjects.LowlevelServer.ProcessData` | examples/hello-events-http/server/main.cpp:91-110 | the feeding loop ends and cuts pipelined messages where the character-wise specification does |
| `HttpObjects.LowlevelServer.PopProtoMessage` | examples/hello-events-http/server/main.cpp:117-122 | the oldest message is read and leaves, readable or not |
| `HttpObjects.LowlevelServer.DispatchAll` | lib/vtrc/server/protocol-layer-s.cpp:266-275 | messages are popped until none is left or one cannot be read |
| `HttpObjects.HeaderParser.PushText` | examples/hello-events-http/protocol/http-header.hpp:137-150 | header then body, as much as belongs to the message |
| `HttpObjects.HeaderParser.PushHeader` | examples/hello-events-http/protocol/http-header.hpp:84-107 | the header loop |
| `HttpObjects.HeaderParser.PushBody` | examples/hello-events-http/protocol/http-header.hpp:109-122 | the body in one piece |
| `HttpObjects.HeaderParser.SetMethod` | examples/hello-events-http/protocol/http-header.hpp:69-82 | the words of the first line |
| `HttpObjects.HeaderParser.SplitLine` | examples/hello-events-http/protocol/http-header.hpp:56-67 | name and value of a field |
| `HttpObjects.BinToHex` | examples/hello-events-http/protocol/http-header.hpp:231-267 | the printing loop |
| `HttpObjects.HexToBin` | examples/hello-events-http/protocol/http-header.hpp:269-315 | the reading loop, empty on any bad input |
| `HttpObjects.ReplacePathLoop` | examples/hello-events-http/protocol/http-header.hpp:17-28 | one trailing separator dropped, the others replaced |
| `HttpObjects.PathToServiceLoop` | examples/hello-events-http/protocol/http-header.hpp:30-41 | the split at the last dot |

## Left out

- Sockets, SSL, pipes, timers, thread pools and process setup: I/O; only the steps under a lock or on a strand are kept.
- Protobuf serialisation and reflection: messages are records, payloads octet sequences.
- ChaCha and SHA-2: their sources are not part of this model. `Lowlevel` lets a cipher be any pad fixed by its key and the lengths sent before it, beside RC4; the handshake uses symbols.
- Cryptographic strength.
- The handshake's init timeout (lib/vtrc/server/connection/default.cpp:94-103), which sends a refusal and closes, and the loss of the connection during the handshake: both end the exchange wherever it is.
- Immediate dispatch across the switch from handshake to ready: the stage runs once for each chunk (lib/vtrc/common/lowlevel-protocol-default.cpp:158-163), so a message can wait for the next chunk. Order is kept.
- `SizePack.UnpackVarint`: for an encoding of more than ten octets the code shifts by 64 or more, which C++ leaves undefined; the parser never unpacks such a one.
- `Lowlevel.Protocol.DispatchAll`: what is done with a popped message, and the broadcast of the protocol error for a bad one, are in `Rpc`; here only the popping is kept.
- `HandshakeObjects.ServerIface.SetReady`: the timer it cancels and the application's hook that may change the session options are left out; the options are a setting of the pair.
- `RpcObjects.ProtocolLayer.ProcessCall`: whether the server has room is an argument; `Admission` decides it.
- `RpcObjects.ProtocolLayer.CallAndWait`: the messages its slot yields are an argument, and registering and erasing the slot are steps of `Rpc`.
- `RpcObjects.WaitsForOwnAnswer`: speaks of the messages in a slot at one moment; that it holds at every moment is `RpcResults.NoCrossTalk`.
- In `Rpc`, service look-up, parsing of requests and their failures are one throw of the handler; a raw call's callback receiver is opaque; a handler either runs its closure or throws, not the one and then the other; a stored context that accepts no callbacks is not used.
- In `Rpc` every caller takes the response; a call made without a response object is answered without a value.
- `Rpc` decides freely whether the server has room for a call; which calls it has room for is in `Admission`. Timeouts, cancellation and errors on the way are the step `Leave`, possible at any time.
- `Rpc` assumes one dispatch loop for each side, as the read handler runs on a strand; so does `Admission`.
- `RpcContexts.CallMade`: a stored context that accepts no callbacks raises an error in the code and is no step here; `set_static_context` is making a new channel, and only with the thread's own context. Clients have one connection each.
- `CallStack.ThreadContext.MakeLocalCall`: service look-up failures and the answer it sends are in `Rpc`; here only the stack and the order of services are kept. `clone_stack` (lib/vtrc/common/protocol-layer.cpp:346-361), which links clones to the source stack, is not modelled.
- `ConditionQueueObjects.QueueStore.Read`: other threads act only during the wait and only on this queue; all interleavings are in `ConditionQueues`. `read_queue`, `wait_queue` and the batch form of `write_queue` are left out.
- `LinkedList.List`: `clear` (include/vtrc/common/details/list.h:188-197) leaves the size as it was and is used only for destruction; it and the copying constructors are left out.
- `ObserverObjects.Observers.Emit`: emissions inside an emission and `unsubscribe_all` inside a slot leave iterators dangling and are not modelled. What other threads do during the filtering of `clear_removed` is `Observer.ClearCommutes`. The 64-bit wrap of the id counter is not modelled.
- `HttpUnits.StreamRoundTrip`: units with an error are printed without ids and as a page, so they do not come back; they are printed and read in the model but not part of the theorem. White space and line ends in names are excluded, since they break the request line.
- Where the HTTP code reads what is not there (an empty request line, a path without a dot after its first character) the model returns nothing, as it does when a number does not convert; a malformed content length stops the stream, as the exception does.
