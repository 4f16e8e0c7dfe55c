# Impulse Ring: a verified model

Impulse Ring is a local message bus. Processes meet in shared memory: a broker hands out
arenas, each holding a ring of length-prefixed records, and after that publishers,
subscribers, callers and services talk to each other directly. This project models the
parts of it where a mistake would lose, duplicate, tear or misdeliver a message, and proves
that none does, on every input, every schedule and every run, or states exactly when one does.

Check it with `dafny verify dfyconfig.toml`, or all files together with
`dafny verify --resource-limit 2000000 --verification-time-limit 0 *.dfy`.

## What is modelled

**The ring, twice.** `SharedRing` is one process's view: a class over an array of bytes with cursor
words that wrap at 2^64, as the Python, Go and C connectors compute them (and as the Rust core does,
short of the debug build's overflow check). Its ghost fields are the unbounded cursors and the queue
of records the bytes stand for. `RingMachine` is everyone's view: any number of producers and one
consumer, every load, store, copied byte, futex wait and futex wake a step, interleaved in any
order, with each thread keeping what it loaded in variables of its own. `RingFifo`, `RingWakeups`
and `RingCalls` say what every step keeps; `RingTheorems` draws the conclusions, `RingRefusals` and
`RingPops` trace each call that ended without a record moved back to its last look at the ring,
`RingProgress` says what a thread can do by itself, and `RingWords` carries them over to the words
of 64 and 32 bits, which wrap. `Circular`, `Records` and `Bits` are the bytes, windows and bit
operations underneath.

**The broker, twice.** `Bus` says what the bus is without saying how it is stored: a map from
channel names, one from function names, the clients, and what each control message and each sweep
does to them (`crates/impulsed/src/broker.rs:180-615`). `BusTheorems` proves what holds of it over
every run, and `BusAnswers` what each client is told, message against message. `Registries` and
`Brokers` are the broker's own objects, with id tables, name indexes, release bookkeeping, the arena
table and the reply rings, changed in place; each method is shown to do to the bus they stand for
exactly what `Bus` says, while a ledger of every arena ever created and unlinked stays balanced.

**Remote calls.** `RpcMachine` puts callers, their pending slots and dispatchers, and services with
one reader and any number of workers, on rings taken as queues, which is what a ring is
(`RingTheorems.RingIsAQueue`, `RpcTheorems.RingsAreQueues`). A handler may do anything: return, fail
to encode, panic. Calls may be abandoned, answers may overtake each other, transports may be swapped
under calls in flight, functions may be exposed anew on fresh arenas while callers still push onto
the old ones, and the replies of control round-trips, which wait in the same pending map, travel on
the same reply rings. `RpcTheorems` follows each request, and then its answer, from place to place;
`RpcPresence` shows that none vanishes, `RpcProgress` that a call that is waited for can always come
to its end, and one that is not never does, and `RpcControl` the same of control round-trips.

**The worker pool.** `PoolMachine` is `Pool::submit` and `Pool::work` over threads, the queue mutex,
the counts mutex and the condition variable, spurious wakes and time-outs included. `PoolTheorems`
says what every schedule keeps, `PoolOvercommit` when a job waits that another worker could have
taken, and `PoolStop` what becomes of it once `running` is cleared.

**The codec and the records.** `Avro` is the encoding of longs in the Apache Avro 1.11 specification
("Binary Encoding", primitive types). `Codecs` are the connectors' encoding and decoding loops, on
64-bit words for Go and C, on unbounded integers for Python and TypeScript; the two loops of each
kind differ only where the code does. `ChannelLists` is Go's loop over a blocked array;
`PythonLists` is Python's, whose cursor can go back and below zero; `ListAgreement` says where the
two agree, and `ListAnswers` takes the broker's own record to both. `Frames` is the wire frame;
`Proto` and `ProtoTheorems` are the seventeen control records with their superseded versions and the
catalog that routes them.

**Reconnecting.** `Reconnects` is the race of callers and the watcher through `reconnect`.

## Where code and documentation part

- `push_blocking` loads `space_seq` after its failed room check. A whole pop in between leaves it
  asleep with room available, until its time-out. `RingLostWakeup.StrandsExactlyAsWritten`: a schedule
  gets there exactly in that order of the loads, at every capacity that holds a record; with the word
  loaded first nothing is lost.
- `Pool::submit` spawns a worker "if there is none" idle, but the idle count still has a worker in it
  that was woken for an earlier job. Two submits can count on that one, and a job then waits for it
  below the bound (`PoolOvercommit.JobsWaitInVain`). `PoolOvercommit.OvercommittedExactlyByMisjudgement`
  says when: exactly when a submitter declined with more jobs queued than workers idle or on the way.
- A comment at `crates/connector/src/client.rs:637` says that the watcher retries a failed replay. It
  does not: by then the connection is on the live epoch, and nothing tries again before the epoch
  changes (`Reconnects.FailedReplayIsNotRetried`, `Reconnects.ReplayCanFail`). One more restart is
  enough to have everything retried (`Reconnects.RestartRebinds`).
- A job submitted while the pool stops may never be answered: a worker that found the queue empty and has
  turned to leave is still counted, so no other is spawned (`PoolStop.LateJobIsStranded`).
  `PoolStop.DrainsExactlyWhenItCan` says when everything submitted can still be answered.
- The owner of a channel or function need not be a registered client: `BusTheorems.OwnerMayBeGone`
  shows a publish that makes one so, `BusTheorems.HandleOwners` says exactly which messages do.
- Python's channel-list loop need not end: a negative string length moves its cursor back
  (`PythonLists.EndlessBody`). `PythonLists.EndlessExactlyWhenItComesBack` says when it does not,
  `PythonLists.EndsUnlessALengthIsNegative` when it surely does. Go's ends on every input, and
  `ListChannelsGo` proves that.

## Assumptions

Memory is sequentially consistent between the Acquire and Release pairs the code uses. Futex wait is
an atomic compare-and-sleep, futex wake wakes the threads it says. Correlation ids are fresh, broker
epochs increase, the broker's clock does not run backwards. A schema's fingerprint is an abstract
function that tells the known schemas apart. Whether a process lives, a schema parses, a segment can
be created or attached, a reply ring takes a reply, and what a key hashes to, are answers of a
`World` that may differ from message to message. Which bytes are UTF-8 is a parameter of Python's
list loop; the witnesses there ask that no bytes at all are.

## Model

| member | source | states |
|---|---|---|
| `SharedRing.Ring.PushLocked` | connectors/python/impulse_ring/ring.py:89-101 | the record goes onto the end of the abstract queue exactly when prefix and payload fit beside the unread bytes, on cursor words that wrap at 2^64; no unread byte is touched, and a refusal writes nothing |
| `SharedRing.Ring.TryPop` | connectors/python/impulse_ring/ring.py:136-146 | the front of the abstract queue comes out whole and nothing else changes; an empty ring gives nothing; each pop moves `space_seq` by one, modulo 2^32 |
| `SharedRing.Ring.WriteWrapped` | connectors/python/impulse_ring/ring.py:62-68 | the region afterwards is the old one with the bytes spliced in at the cursor, wherever they wrap |
| `SharedRing.Ring.ReadWrapped` | connectors/python/impulse_ring/ring.py:70-76 | what is read is the window the region shows from the cursor on, wherever it wraps |
| `SharedRing.Ring.CopyIn` | connectors/go/ring.go:56-67 | the one or two copies store each source byte at its wrapped place and no other byte |
| `SharedRing.Ring.CopyOut` | connectors/go/ring.go:69-82 | the one or two copies read exactly the wrapped places in order |
| `SharedRing.Ring.Format` | connectors/python/impulse_ring/ring.py:40-50 | a formatted ring stands for the empty queue |
| `SharedRing.AttachSeesFormat` | crates/core/src/ring.rs:89-111 | a formatted ring attaches with its own capacity exactly when that capacity fits the header's u32 word |
| `SharedRing.AttachExactly` | crates/core/src/ring.rs:89-104 | attaching takes the capacity the header states if and only if the header is formatted, that capacity is a power of two, and the segment holds all of its data region |
| `Records.WrappedIndex` | connectors/c/src/impulse_ring.c:471-484 | masking a wrapped cursor word gives the place of the unbounded cursor, for every power of two up to 2^32 |
| `Records.WrappedDistance` | connectors/python/impulse_ring/ring.py:94-96 | the wrapped difference of two cursor words is the true distance of the cursors while it is below 2^64 |
| `Records.WrappedAdd` | connectors/python/impulse_ring/ring.py:100-100 | advancing a wrapped word is wrapping the advanced cursor |
| `Records.LayoutPush` | crates/core/src/ring.rs:246-253 | writing prefix and payload at the head, each wrapping on its own, makes the bytes stand for the queue with the record appended |
| `Records.LayoutPop` | crates/core/src/ring.rs:260-266 | the prefix and payload read at the tail are the front record, and the bytes after them stand for the rest |
| `Records.LayoutEmpty` | crates/core/src/ring.rs:260-262 | equal cursors mean the empty queue and nothing else; the distance is the encoded size |
| `Records.LeByte` | crates/core/src/ring.rs:248-249 | byte i of a stored word stands for 256 to the i |
| `Bits.PowerOfTwoTest` | crates/core/src/ring.rs:89-111 | the capacity test `cap & (cap - 1) == 0` accepts exactly the powers of two |
| `Bits.AndMask` | crates/core/src/ring.rs:144-147 | `pos & (2^k - 1)` is the remainder modulo 2^k |
| `RingTheorems.PoppedIsPrefixOfPushed` | crates/core/src/ring.rs:198-272 | on every schedule of any number of producers and one consumer, byte by byte, the popped records are a prefix of the records in order of their head stores, and the bytes between the cursors are the rest |
| `RingTheorems.StepIsQueueStep` | crates/core/src/ring.rs:237-272 | every single step appends the record of the call whose head store it is, or removes the front, or leaves the queue alone |
| `RingTheorems.RingIsAQueue` | crates/core/src/ring.rs:198-272 | in every behaviour each step takes one record in at the end of the queue, or the first one out, or neither |
| `RingWords.StepOnWords` | connectors/python/impulse_ring/ring.py:89-146 | a step on 64-bit cursors and 32-bit futex words is the step on counters that never wrap, modulo the words, for every power of two up to 2^32 |
| `RingWords.RunOnWords` | crates/core/src/ring.rs:144-298 | every run of the machine is, modulo the words, a run on words |
| `RingWords.WordsRun` | crates/core/src/ring.rs:144-298 | every run on words is a run of the machine, modulo the words |
| `RingWords.FifoOnWords` | crates/core/src/ring.rs:198-272 | on words that wrap, too, what was popped is a prefix of what was pushed, and the bytes between the cursor words are the rest |
| `RingTheorems.MutualExclusion` | crates/core/src/ring.rs:172-195 | the lock word is non-zero exactly while one thread holds the lock, never two; whenever a thread sleeps on it the word is 2, or a wake is owed, or a contender is about to make it 2 |
| `RingTheorems.RoomCheckDoesNotUnderflow` | crates/core/src/ring.rs:242-247 | `head - tail` and `capacity - used` never go below zero, however stale the loaded tail is |
| `RingTheorems.NoLostDataWake` | crates/core/src/ring.rs:275-298 | a consumer asleep on a non-empty ring is owed a wake by a producer past its head store, given fewer than 2^32 bumps before it slept (that consumers do sleep is `RingProgress.ConsumerCanPark`) |
| `RingTheorems.NoLostSpaceWake` | crates/core/src/ring.rs:211-234 | a producer asleep with room for its record is owed a wake by the consumer, except, in the order as written, when a whole pop fell between its loads of `tail` and `space_seq`; loading `space_seq` first removes the exception |
| `RingTheorems.AppendedExactlyOnce` | crates/core/src/ring.rs:211-220 | a push that returned true put its record in once, at one moment during the call |
| `RingRefusals.RefusedForLackOfRoom` | crates/core/src/ring.rs:211-254 | a push that returned false put nothing in: there is a state of the run in which the call, holding the lock, last looked for room, and the ring as it was in that state had none for its record; the call never looked again; a blocking push had a deadline, which had passed |
| `RingRefusals.ThreadTraced` | crates/core/src/ring.rs:237-247 | whatever the schedule does between, what a thread at its check, or refused by it, remembers is the state at its own latest look |
| `RingRefusals.OutcomesAreOfCalls` | crates/core/src/ring.rs:198-234 | every push that ended is one the schedule began, with that record, that choice of blocking and that deadline |
| `RingPops.EmptyHandedForGoodReason` | crates/core/src/ring.rs:257-298 | a pop that ended with nothing is one the schedule began with that choice of blocking and that deadline; the ring was empty in the state of the run in which it last loaded the cursors; and if it was to block it had a deadline, which had passed, so a pop to block without a deadline never ends without a record |
| `RingPops.ReturnedIsPrefixOfPushed` | crates/core/src/ring.rs:257-298 | the records pop calls have returned, in the order of the calls, are a prefix of the records pushed, and all that was popped but the one of a call yet to return |
| `RingProgress.PopEndsByItself` | crates/core/src/ring.rs:275-298 | from any state of any run, a pop that has or finds a record, or need not wait, or whose deadline has passed, ends by the consumer's own steps, with the record it has, or the front one, or with nothing if the ring was empty when it looked |
| `RingProgress.PopGoesToSleep` | crates/core/src/ring.rs:275-298 | from any state of any run in which the ring is empty, a pop to block goes to sleep by the consumer's own steps, unless its deadline has passed |
| `RingProgress.ConsumerCanPark` | crates/core/src/ring.rs:275-298 | so a consumer does come to sleep, on any freshly formatted ring |
| `RingProgress.PushEndsByItself` | crates/core/src/ring.rs:172-254 | from any state of any run in which nobody else has the lock, a push for which there is room, or that need not wait, or whose deadline has passed, ends by its thread's own steps, and puts its record in if and only if there is room and it has not found otherwise already |
| `RingProgress.PushGoesToSleep` | crates/core/src/ring.rs:211-234 | from any state of any run in which nobody else has the lock, a push to block for which there is no room goes to sleep by its thread's own steps, unless its deadline has passed |
| `RingProgress.ContenderGoesToSleep` | crates/core/src/ring.rs:172-188 | a thread that wants the lock while another has it goes to sleep by its own steps |
| `RingTheorems.StepInv` | crates/core/src/ring.rs:172-298 | every step of the machine keeps the whole invariant |
| `RingTheorems.RunInv` | crates/core/src/ring.rs:172-298 | the invariant holds after every schedule |
| `RingLostWakeup.AsWrittenLosesAWakeup` | crates/core/src/ring.rs:211-234 | the exception is real at every capacity that holds a record: a schedule of the order as written ends with a producer asleep on an empty ring and no wake on its way |
| `RingLostWakeup.StrandsExactlyAsWritten` | crates/core/src/ring.rs:211-254 | for every capacity and either order of the loads: some schedule leaves a producer asleep with room and no wake pending, fewer than 2^32 bumps behind, if and only if `space_seq` is loaded after the check and the capacity is at least four |
| `RingFifo.HeadStore` | crates/core/src/ring.rs:248-253 | the head store, not any earlier byte, is what appends the record |
| `RingFifo.TailStore` | crates/core/src/ring.rs:257-266 | what was read byte by byte is the front record, and the tail store is what removes it |
| `RingFifo.CopyByte` | crates/core/src/ring.rs:144-154 | a byte copied above the head, wherever it wraps, extends the new record's window and leaves the unread one alone |
| `RingFifo.ReadByte` | crates/core/src/ring.rs:156-168 | what the consumer has read stays a beginning of the front record while producers write |
| `RingFifo.Prefix` | crates/core/src/ring.rs:263-265 | a partial copy of a record never looks complete |
| `RingFifo.StepMutex` | crates/core/src/ring.rs:172-195 | mutual exclusion and the meaning of the lock word survive every step |
| `RingFifo.StepBytes` | crates/core/src/ring.rs:237-272 | the byte-level invariant survives every step |
| `RingFifo.ReleaseShape` | crates/core/src/ring.rs:190-195 | what an unlock, and the wake it owes, may touch |
| `RingWakeups.StepSleepers` | crates/core/src/ring.rs:172-195 | no step leaves a lock sleeper without someone on the way to rouse it |
| `RingWakeups.StepDataWake` | crates/core/src/ring.rs:198-298 | no step loses the consumer's wake |
| `RingWakeups.StepSpaceWake` | crates/core/src/ring.rs:211-272 | no step loses a producer's wake, but for the exception |
| `RingCalls.StepCalls` | crates/core/src/ring.rs:198-254 | every step keeps the account of every push call: in flight, taken effect once, or refused |
| `RingCalls.CallPushes` | crates/core/src/ring.rs:237-254 | the head store is the one moment a call takes effect |
| `RingCalls.RoomSeen` | crates/core/src/ring.rs:242-247 | what a room check computes is the queue's size at the moment `tail` was loaded |
| `Control.ClampIsLeastLegal` | crates/core/src/control.rs:73-83 | who asks for nothing gets 512 KiB; anybody else a power of two within the limits, the least that holds the request, or 128 MiB for a request beyond that |
| `Names.ArenaNamesDiffer` | crates/core/src/util.rs:14-21 | different ids have different arena names, and a channel's arena is never a function's |
| `Names.DecimalReads` | crates/core/src/util.rs:14-21 | a printed id reads back as that id |
| `BusTheorems.LostExactlyWhenRemoved` | crates/impulsed/src/broker.rs:180-198 | over any run a channel is lost if and only if some turn removed it: its owner's Unpublish while subscribed, its owner's Unregister, a sweep past its grace, a publish of its released name, or a publish or expose that hit a name of its positively dead owner |
| `BusTheorems.HandleEvicts` | crates/impulsed/src/broker.rs:200-217 | one message removes a channel if and only if it is one of those |
| `BusTheorems.HandleEvictsFn` | crates/impulsed/src/broker.rs:275-285 | one message removes a function if and only if its owner departs or is found dead |
| `BusTheorems.TakeRemoves` | crates/impulsed/src/broker.rs:180-198 | one turn removes a channel if and only if its message or its sweep does |
| `BusTheorems.NoResurrection` | crates/impulsed/src/registry.rs:218-228 | a channel once gone never comes back: its id is not given out again in any run |
| `BusTheorems.HandleSound` | crates/impulsed/src/broker.rs:200-217 | ids stay positive, below the counters and unshared through every message |
| `BusTheorems.RunSound` | crates/impulsed/src/broker.rs:180-198 | the same over every run |
| `BusTheorems.ReleasedChannelsAreReclaimed` | crates/impulsed/src/broker.rs:191-196 | a turn that ends a grace and a sweep interval after a release leaves nothing of the released channel, if and only if the turn's own message did not release it anew, less than a grace before the turn ended |
| `BusTheorems.GraceHolds` | crates/impulsed/src/registry.rs:157-172 | a released channel stays subscribable by id until its grace ends, unless a message evicts it |
| `BusTheorems.RunSwept` | crates/impulsed/src/registry.rs:174-184 | every release still waiting was made less than a grace before the last sweep |
| `BusTheorems.PublishSucceeds` | crates/impulsed/src/broker.rs:302-410 | a publish is answered OK if and only if the schema parses, the arena can be made, and the name is free, released, or held by a client positively dead; then the name denotes the new id, owned by the publisher |
| `BusTheorems.RepliesNameLiveArenas` | crates/impulsed/src/broker.rs:395-457 | an arena name in a reply is the arena of something alive when the message is done, and only an OK reply carries one |
| `BusTheorems.ArenasAreKeyGated` | crates/impulsed/src/registry.rs:272-285 | nobody learns a channel's arena without being its publisher or presenting its key and a matching schema |
| `BusTheorems.HandleOwners` | crates/impulsed/src/broker.rs:302-588 | a message keeps every owner of a channel or function registered if and only if it is not an OK publish or expose by a client that is unregistered, or was itself the dead owner released on the way |
| `BusTheorems.OwnersKnownExactlyUnlessOrphaned` | crates/impulsed/src/broker.rs:180-198 | over a run every owner is registered at every moment if and only if no turn brings such a message |
| `BusTheorems.OwnerMayBeGone` | crates/impulsed/src/broker.rs:352-410 | client 7, never registered, publishes on an empty bus with any schema that parses, and owns the channel |
| `BusAnswers.SubscribeIsAnswered` | crates/impulsed/src/registry.rs:270-314 | after an OK publish with key k and a schema that parses to fp, and any run, a subscription to its id with key k2 and expectation e is denied if and only if k is not empty and the two keys hash differently; otherwise mismatched if and only if e is neither zero nor fp; otherwise OK with that publish's arena and fp, and the channel is then subscribed; once the channel is gone the id is not found; a refusal changes nothing |
| `BusAnswers.LookupIsAnswered` | crates/impulsed/src/broker.rs:590-613 | after an OK expose with key k and schemas that parse to p and q, and any run that keeps the function, a lookup is denied if and only if k is not empty and the keys hash differently, and otherwise told that expose's id and arena, p as the request schema and q as the response schema; a name nothing is exposed under is not found; nothing is changed |
| `BusAnswers.PublishedChannel` | crates/impulsed/src/broker.rs:352-410 | the OK reply to a publish carries the new id, what the schema parses to and the id's arena; the channel is the publisher's, unsubscribed, unreleased, and has the key's hash if a key was given |
| `BusAnswers.ExposedFunction` | crates/impulsed/src/broker.rs:529-587 | the OK reply to an expose carries the new id, what the request and the response schema parse to, in that order, and the id's arena; the function is the exposer's, with the key's hash if a key was given |
| `BusAnswers.UnknownIdIsNotFound` | crates/impulsed/src/registry.rs:278-281 | a subscription to an id no channel has is not found |
| `BusAnswers.ClientIsKnown` | crates/impulsed/src/broker.rs:232-254 | a register is answered only if its reply segment attaches, with an id nobody has had; while the client stays it is known by the name and the process id it gave, taken as 32 bits |
| `BusAnswers.UnattachedIsIgnored` | crates/impulsed/src/broker.rs:232-254 | a register whose reply segment does not attach changes nothing and is not answered |
| `BusAnswers.UnregisterIsFinal` | crates/impulsed/src/broker.rs:256-285 | a client that unregistered is gone, with every channel and function of its own, and its id is never a client again |
| `BusAnswers.TakenNameIsRefused` | crates/impulsed/src/broker.rs:319-351 | a published name is refused to the next publisher, any run later, if and only if its owner has not unpublished it and is not positively dead: registered with a non-zero process id of a process that is gone |
| `BusAnswers.TakenFunctionIsRefused` | crates/impulsed/src/broker.rs:506-528 | an exposed name likewise, but for the release |
| `BusAnswers.FreeNameIsRefusedInternally` | crates/impulsed/src/broker.rs:352-394 | under a free name a publish fails, with an internal error and nothing on the bus, if and only if its schema does not parse or its arena cannot be made |
| `BusAnswers.FreeFunctionIsRefusedInternally` | crates/impulsed/src/broker.rs:529-560 | likewise an expose, for either schema |
| `BusAnswers.UnpublishIsFinalOnceSubscribed` | crates/impulsed/src/registry.rs:157-172 | its owner's Unpublish ends a channel at once if and only if some turn since the publish granted a subscription to it, and otherwise begins its grace |
| `BusAnswers.ChannelIsListed` | crates/impulsed/src/registry.rs:252-268 | the list has a published channel exactly while it is alive, and once: with its id, its name, the app its owner registered under, what its schema parses to, and whether it was published with a key |
| `BusAnswers.AnswerIsPlaced` | crates/impulsed/src/broker.rs:219-230 | an answer is placed exactly when whom it is for is registered and its ring takes it |
| `BusAnswers.ChannelOverRun` | crates/impulsed/src/broker.rs:180-198 | a channel alive after a run keeps its owner, schema and key; it is subscribed if and only if it was or a turn granted a subscription, and released if and only if it was or its owner unpublished it |
| `BusAnswers.FunctionOverRun` | crates/impulsed/src/broker.rs:180-198 | a function alive after a run is as it was exposed |
| `Registries.Registry.constructor` | crates/impulsed/src/registry.rs:75-82 | empty tables stand for the empty bus |
| `Registries.Registry.DeadChannelOwner` | crates/impulsed/src/registry.rs:107-112 | the owner of the name on the bus, exactly when it is positively dead |
| `Registries.Registry.DeadFunctionOwner` | crates/impulsed/src/registry.rs:99-104 | likewise for a function name |
| `Registries.Registry.DropChannel` | crates/impulsed/src/registry.rs:138-144 | the bus loses exactly that id's name, the arena set exactly its arena, and index and bookkeeping stay in step |
| `Registries.Registry.DropAll` | crates/impulsed/src/registry.rs:127-133 | whatever order the ids come in, the bus loses exactly their channels, and each arena is handed back once |
| `Registries.Registry.RemoveClientChannels` | crates/impulsed/src/registry.rs:120-134 | the channels become those of the bus after the client departed; each of its arenas is handed back once |
| `Registries.Registry.RemoveClientFunctions` | crates/impulsed/src/registry.rs:201-216 | likewise for functions |
| `Registries.Registry.DropFunction` | crates/impulsed/src/registry.rs:210-214 | the bus loses exactly that function |
| `Registries.Registry.MarkSubscribed` | crates/impulsed/src/registry.rs:148-150 | only that channel's entry on the bus changes, to subscribed |
| `Registries.Registry.ReleaseChannel` | crates/impulsed/src/registry.rs:157-172 | by name and owner, the channels become those of the bus after the release; an arena is handed back exactly when it can go now |
| `Registries.Registry.ReapReleased` | crates/impulsed/src/registry.rs:176-184 | the channels become those of the bus after the sweep; each overdue arena is handed back once |
| `Registries.Registry.ReapIfReleased` | crates/impulsed/src/registry.rs:192-198 | the name is freed if and only if its channel was released |
| `Registries.Registry.InsertChannel` | crates/impulsed/src/registry.rs:234-237 | under a free name, the bus gains exactly that channel |
| `Registries.Registry.InsertFunction` | crates/impulsed/src/registry.rs:243-246 | under a free name, the bus gains exactly that function |
| `Registries.Registry.AllocChannelId` | crates/impulsed/src/registry.rs:218-222 | a channel id not in the table, and past all before it |
| `Registries.Registry.AllocFnId` | crates/impulsed/src/registry.rs:224-228 | a function id not in the table, and past all before it |
| `Registries.Registry.ResolveSubscribe` | crates/impulsed/src/registry.rs:272-285 | resolution by id table is resolution by name on the bus: unknown, denied, mismatched or granted alike |
| `Registries.Registry.ResolveLookup` | crates/impulsed/src/registry.rs:288-298 | likewise for functions |
| `Registries.Registry.ListChannels` | crates/impulsed/src/registry.rs:252-268 | what is listed is what is on the bus |
| `Registries.Registry.ArenasDisjoint` | crates/impulsed/src/registry.rs:18-36 | the arenas of channels and of functions are disjoint |
| `Registries.DropKeepsOrder` | crates/impulsed/src/registry.rs:138-144 | table and name index stay mutual inverses, and the bookkeeping speaks of live channels only, when a channel goes |
| `Registries.InsertKeepsOrder` | crates/impulsed/src/registry.rs:234-237 | and when one enters under a free name |
| `Registries.IdInView` | crates/impulsed/src/registry.rs:272-281 | an id in the table denotes one name on the bus, and the bus knows no other id |
| `Brokers.Broker.Run` | crates/impulsed/src/broker.rs:180-198 | any number of turns of the loop do to the bus what the run of the specification does, place exactly the replies of that run, in order, create exactly the arenas of its OK publishes and exposes, in order and none twice, and unlink, each once, exactly those that were live or created and are live no more |
| `Brokers.Broker.TakeTurn` | crates/impulsed/src/broker.rs:182-197 | one turn: the message if one came, with its reply placed if it can be, and the sweep if it is due; the arena made for it is the one its OK reply names, and what left the bus is unlinked, each arena once |
| `Brokers.Broker.Handle` | crates/impulsed/src/broker.rs:200-217 | every message does to the bus what it specifies; exactly the specified reply is placed on the specified client's ring, if it can be; an arena is created exactly for an OK publish or expose; and exactly the arenas of what left the bus are unlinked, each once |
| `Brokers.Broker.OnPublish` | crates/impulsed/src/broker.rs:302-410 | as specified, in every branch; an OK reply's arena is new and mapped with the requested capacity, clamped, and no other outcome creates one |
| `Brokers.Broker.PublishUnder` | crates/impulsed/src/broker.rs:352-410 | once the name is free: parse, allocate, create, enter, answer, each failure answered |
| `Brokers.Broker.ClaimChannelName` | crates/impulsed/src/broker.rs:319-351 | when it lets a publish go on the name is free on every path, the dead-owner path included; when it refuses nothing changed |
| `Brokers.Broker.ClaimFunctionName` | crates/impulsed/src/broker.rs:506-528 | likewise for an expose |
| `Brokers.Broker.OnExpose` | crates/impulsed/src/broker.rs:502-587 | as specified, in every branch; an OK reply's request arena is new and mapped with the requested capacity, clamped, and no other outcome creates one |
| `Brokers.Broker.ExposeUnder` | crates/impulsed/src/broker.rs:529-587 | once the name is free: both schemas, allocate, create, enter, answer, each failure answered |
| `Brokers.Broker.OnUnpublish` | crates/impulsed/src/broker.rs:435-458 | as specified, the arena unmapped exactly when the channel goes now |
| `Brokers.Broker.OnSubscribe` | crates/impulsed/src/broker.rs:473-500 | as specified: only a granted subscription marks the channel, and every outcome is answered |
| `Brokers.Broker.OnLookup` | crates/impulsed/src/broker.rs:590-613 | every outcome answered as specified, nothing changed |
| `Brokers.Broker.OnList` | crates/impulsed/src/broker.rs:460-471 | the list of what is on the bus, to the client that asked |
| `Brokers.Broker.OnRegister` | crates/impulsed/src/broker.rs:232-254 | a fresh client with a reply ring, when its reply segment attaches; nothing otherwise |
| `Brokers.Broker.ReleaseClient` | crates/impulsed/src/broker.rs:275-285 | the departed client's channels, functions, arenas, entry and reply ring are all gone, each arena unlinked once, and nothing else is |
| `Brokers.Broker.Sweep` | crates/impulsed/src/broker.rs:191-196 | the overdue releases are gone, exactly their arenas are unlinked, each once, and nothing else is |
| `Brokers.Broker.MakeArena` | crates/impulsed/src/broker.rs:287-293 | a name never used before becomes mapped, if it can be created |
| `Brokers.Broker.ReclaimArena` | crates/impulsed/src/broker.rs:295-300 | a mapped arena is unlinked, once |
| `Brokers.Broker.ReclaimAll` | crates/impulsed/src/broker.rs:275-281 | each arena of a list without repeats is unlinked once |
| `Brokers.Broker.Answer` | crates/impulsed/src/broker.rs:219-230 | a reply is placed exactly when the client has a reply ring that takes it |
| `Brokers.Broker.AllocChannelId` | crates/impulsed/src/broker.rs:369-374 | the new id's arena name was never created before |
| `Brokers.Broker.AllocFnId` | crates/impulsed/src/broker.rs:541-543 | likewise for functions |
| `Brokers.Broker.LiveArenasAreMapped` | crates/impulsed/src/broker.rs:44-47 | everything on the bus has its arena mapped, as a ring of legal capacity |
| `Brokers.Broker.RepliesNameMappedArenas` | crates/impulsed/src/broker.rs:395-501 | an arena named in any reply is mapped when the message is done, as a ring of legal capacity |
| `Brokers.LedgerCreate` | crates/impulsed/src/broker.rs:287-293 | no arena name is ever created twice, and what is created is mapped |
| `Brokers.LedgerUnlink` | crates/impulsed/src/broker.rs:295-300 | no arena is unlinked twice, or while it stays mapped |
| `Brokers.LedgerFresh` | crates/impulsed/src/registry.rs:218-228 | an arena name of an id not yet given out was never created |
| `Brokers.LedgerGrows` | crates/impulsed/src/broker.rs:287-300 | between two moments of the broker's life, exactly the arenas that were mapped or were created since, and are mapped no more, were unlinked, each once |
| `Registries.ArenasInView` | crates/impulsed/src/registry.rs:18-36 | the arenas the tables hold are exactly those of what is on the bus |
| `Brokers.GrantIsLegal` | crates/impulsed/src/broker.rs:370-373 | a request for nothing, or for less than nothing, is granted 512 KiB, one for more than 128 MiB that much, and any other the least legal capacity that holds it |
| `RpcTheorems.ResolvesToItsOwnAnswer` | crates/connector/src/rpc.rs:208-350 | a call that resolves OK resolves to what the handler returned for that call's own request, from a function with both expected schemas; the request was served once and the call resolved once, under any scheduling, reordering, panics, abandoned calls and reconnects |
| `RpcTheorems.AtMostOnce` | crates/connector/src/client.rs:734-759 | no request is served twice, no call resolves twice, and none resolves unserved |
| `RpcTheorems.RemoteErrorsAreItsOwn` | crates/connector/src/rpc.rs:314-350 | how a call resolves says what became of its own request, and the other way round: a remote error exactly for a wrong schema, bad arguments, a panic or a result that would not encode; a foreign result schema exactly when all went well but the function answers with one; the handler's result exactly otherwise |
| `RpcProgress.RequestsNameTheirRings` | crates/connector/src/lib.rs:295-303 | in every run, every request was built for its call, in a state in which the reply ring it names was the one its connection had |
| `RpcProgress.RunRings` | crates/connector/src/client.rs:621-628 | in every run, connections have reply rings of their own, and the ring a request names is no other connection's |
| `RpcProgress.WaitingCallCanResolve` | crates/connector/src/rpc.rs:208-350 | from any state of any run, a call whose request is on an arena, on its way to a worker or with one, its slot pending and its connection on the ring its request named, can be resolved; and for whatever its handler does, to exactly what that calls for: the returned value if both schemas match, a schema error, an internal error |
| `RpcProgress.Resolves` | crates/connector/src/rpc.rs:208-350 | the same from wherever its request or its response is; once the handler has run, to what that made of it |
| `RpcProgress.GoesOn` | crates/connector/src/rpc.rs:208-350 | wherever it is, some step brings the call nearer to its end |
| `RpcProgress.NeverResolves` | crates/connector/src/client.rs:745-754 | a call whose slot is not pending and has not been matched, because it was abandoned, not placed or cleared, never resolves, in any continuation |
| `RpcProgress.ClearedForGood` | crates/connector/src/client.rs:621-628 | so a call in flight when a reconnect clears the pending slots, and not matched by then, never resolves |
| `RpcPresence.NothingVanishes` | crates/connector/src/rpc.rs:208-364 | in every run, a call's request, and then its response, is in the very arena, queue, worker, ring, dispatcher or slot the log says, unless it is logged as lost; and the call is served by the function it was sent to |
| `RpcPresence.StepPresent` | crates/connector/src/rpc.rs:208-364 | no step makes a request or a response vanish |
| `RpcPresence.OnlyWaitersArePending` | crates/connector/src/client.rs:396-405 | in every run, a slot is pending only on its call's own connection and while the call waits; one that was not placed, was abandoned or has been resolved is pending nowhere |
| `RpcTheorems.StepInv` | crates/connector/src/rpc.rs:208-364 | every step of callers, services, workers, dispatchers and reconnects keeps the invariant |
| `RpcTheorems.RunInv` | crates/connector/src/rpc.rs:208-364 | the invariant holds after every schedule |
| `RpcTheorems.Local` | crates/connector/src/client.rs:155-174 | a step is judged by the one function, ring, connection and call it touches; everything else stays in order |
| `RpcTheorems.ServeInv` | crates/connector/src/rpc.rs:237-243 | serving answers the request the worker holds, once |
| `RpcTheorems.SendInv` | crates/connector/src/rpc.rs:352-364 | a response goes to the reply ring its own request named, or is lost |
| `RpcTheorems.RouteInv` | crates/connector/src/client.rs:747-754 | a frame takes out its own call's slot or nobody's; a stray takes none |
| `RpcTheorems.CompleteInv` | crates/connector/src/client.rs:62-69 | the slot that was taken out gets that call's own response |
| `RpcTheorems.PollInv` | crates/connector/src/rpc.rs:81-90 | the future resolves from its own slot, once |
| `RpcTheorems.DropInv` | crates/connector/src/rpc.rs:71-79 | abandoning a call, or dropping a resolved one, disturbs no other |
| `RpcTheorems.PushInv` | crates/connector/src/lib.rs:303-314 | a request is on one arena once, or, if the arena is full, nowhere |
| `RpcTheorems.SwapInv` | crates/connector/src/client.rs:621-628 | a swapped transport leaves what is in flight where it was |
| `RpcTheorems.ReexposeInv` | crates/connector/src/client.rs:687-692 | a function exposed anew gets a fresh arena under the same reader and workers; what the old arenas hold stays where it is |
| `RpcTheorems.ControlInv` | crates/connector/src/client.rs:376-394 | a control round-trip, answered or given up, disturbs no call |
| `RpcTheorems.ControlRepliesAreItsOwn` | crates/connector/src/client.rs:376-394 | a control round-trip is told a frame about its own correlation id, never a call's response nor another's reply |
| `RpcControl.ReplyReachesItsWaiter` | crates/connector/src/client.rs:376-394 | from any state of any run, a control round-trip whose reply has come to its connection's ring, while it still waits, can be told that reply |
| `RpcControl.GivenUpForGood` | crates/connector/src/client.rs:386-393 | one that was given up is never pending on its connection again |
| `RpcTheorems.ReadInv` | crates/connector/src/rpc.rs:286-307 | the reader takes requests off the arena in order, each once |
| `RpcTheorems.TakeInv` | crates/connector/src/rpc.rs:213-219 | a worker takes a queued request nobody else has |
| `RpcTheorems.RingsAreQueues` | crates/connector/src/lib.rs:303-314 | a step of the machine does to each reply ring and each arena only what a ring is shown to allow: append, take the first, or nothing |
| `PoolTheorems.CountsAreExact` | crates/connector/src/rpc.rs:189-249 | `workers` never exceeds the bound and counts exactly the live and about-to-be-spawned threads; `idle_workers` counts exactly the threads between their increment and decrement; neither is ever taken below zero |
| `PoolTheorems.JobsAreConserved` | crates/connector/src/rpc.rs:189-249 | jobs are taken in the order they were submitted; the submitted ones are exactly the queued, the in-service and the answered ones |
| `PoolTheorems.QueuedJobsAreAttended` | crates/connector/src/rpc.rs:189-232 | while the pool runs and a worker sleeps, each queued job has a worker of its own heading for the queue or a submitter of its own about to wake or spawn one; a queued job with neither in sight means that every worker is busy serving, so none depends on a wait timing out; with no worker counted, a submitter has yet to decide |
| `PoolTheorems.LocksExclude` | crates/connector/src/rpc.rs:169-178 | each of the two mutexes has one owner at a time |
| `PoolTheorems.StepInv` | crates/connector/src/rpc.rs:189-249 | every step of submitters and workers keeps the invariant |
| `PoolTheorems.RunInv` | crates/connector/src/rpc.rs:189-249 | the invariant holds after every schedule |
| `PoolTheorems.JoinedHeads` | crates/connector/src/rpc.rs:200-204 | a spawn puts one more worker on its way to the queue, and so does a notify, unless no worker sleeps |
| `PoolOvercommit.OvercommittedExactlyByMisjudgement` | crates/connector/src/rpc.rs:191-199 | in every run, more jobs are queued than workers are available or coming, below the bound, at some moment if and only if some submitter declined to spawn while the queue was longer than the idle count it read and whoever was on the way taken together |
| `PoolOvercommit.OvercommitsExactlyAboveOne` | crates/connector/src/rpc.rs:189-205 | such a moment can come if and only if the bound allows two workers |
| `PoolOvercommit.JobsWaitInVain` | crates/connector/src/rpc.rs:189-232 | a schedule with one submitter ends with a job queued, the only worker busy with another, nobody owing anything, and the bound not reached |
| `PoolOvercommit.StepOvercommits` | crates/connector/src/rpc.rs:189-249 | a misjudged decision overcommits the pool at once, and no other step does |
| `PoolOvercommit.GuardByIdleAlone` | crates/connector/src/rpc.rs:193-193 | with nobody else on the way, the misjudgement is just declining with a queue longer than the idle count |
| `PoolOvercommit.GuardImpliesIdleTooFew` | crates/connector/src/rpc.rs:193-193 | whoever misjudges declines with a queue longer than the idle count it reads |
| `PoolOvercommit.IdleTooFewIsNotEnough` | crates/connector/src/rpc.rs:193-193 | with somebody on the way it is not: a state that keeps the invariant, where declining so overcommits nothing |
| `PoolTheorems.Decided` | crates/connector/src/rpc.rs:191-199 | a submitter that decided has left at least one worker counted |
| `PoolTheorems.SubEmptied` | crates/connector/src/rpc.rs:190-190 | nothing is pushed between a worker's look at the empty queue and its sleep |
| `PoolStop.NeverSleepsAgain` | crates/connector/src/rpc.rs:213-249 | a worker that is up once `running` has been cleared never falls asleep again, in any behaviour |
| `PoolStop.DrainsExactlyWhenItCan` | crates/connector/src/rpc.rs:189-249 | once `running` has been cleared, in any behaviour: without new submissions, some schedule ends with every job submitted answered, the queue empty, every worker gone and both counts at zero, if and only if no job is queued, or a worker has not turned to leave, or a submitter in flight will queue its job and see to a worker |
| `PoolStop.Drains` | crates/connector/src/rpc.rs:189-249 | and then both without any wait timing out, and with nobody notified but by a submit, each sleeper waking as its wait times out |
| `PoolStop.RunningCanDrain` | crates/connector/src/rpc.rs:189-249 | while the pool runs that is always so: at the moment of stopping nothing is lost yet |
| `PoolStop.LateJobIsStranded` | crates/connector/src/rpc.rs:189-249 | it can fail to be so afterwards: a schedule leaves a late job queued with the only worker counted but turned to leave |
| `Avro.VarintReads` | connectors/go/avro.go:57-70 | a varint is read back as itself, and no further, whatever follows it |
| `Avro.PrefixFree` | connectors/go/avro.go:13-22 | no encoding of a long is a proper prefix of another, and equal encodings are of equal longs |
| `Avro.LongSize` | connectors/go/avro.go:13-22 | an encoded i64 takes one to ten bytes |
| `Avro.ZigZagInverse` | connectors/go/avro.go:72-75 | zig-zag is a bijection between the integers and the naturals, and between i64 and u64 |
| `Avro.OrWrapped` | connectors/go/avro.go:63-63 | or-ing a shifted group into a 64-bit word adds it, modulo 2^64, shifts past the word included |
| `Codecs.ZigZagForms` | connectors/ts/src/avro.ts:18-22 | zig-zag as computed on 64-bit words, and as computed on unbounded integers, is the arithmetic one |
| `Codecs.UnZigZagForms` | connectors/python/impulse_ring/avro.py:76-78 | likewise for its inverse |
| `Codecs.Encoder.PutVarintWord` | connectors/c/src/impulse_ring.c:145-151 | Go's and C's loop writes exactly the varint |
| `Codecs.Encoder.PutVarintBig` | connectors/ts/src/avro.ts:10-16 | Python's and TypeScript's loop writes exactly the varint |
| `Codecs.Encoder.PutLongWord` | connectors/go/avro.go:21-22 | Go and C write exactly the Avro encoding of every i64 |
| `Codecs.Encoder.PutLongBig` | connectors/python/impulse_ring/avro.py:26-27 | Python and TypeScript write the same bytes |
| `Codecs.Encoder.PutBytes` | connectors/go/avro.go:40-43 | length, then the bytes |
| `Codecs.Decoder.VarintGo` | connectors/go/avro.go:57-70 | on any bytes: the value of what is there, modulo 2^64, and how far it reads |
| `Codecs.Decoder.VarintC` | connectors/c/src/impulse_ring.c:161-176 | on any bytes: a value if and only if the varint ends within ten bytes and within the data |
| `Codecs.PythonDecoder.Varint` | connectors/python/impulse_ring/avro.py:65-74 | from any cursor, negative ones included: the exact value and where it ends, or an IndexError if and only if the index leaves the data on either side |
| `Codecs.Decoder.VarintTs` | connectors/ts/src/avro.ts:59-69 | on any bytes and from any cursor, past the end too: the exact value of what is there, and one step past what it read if the data runs out |
| `Codecs.Decoder.LongGo` | connectors/go/avro.go:72-75 | reads back every encoded i64 and stops right after it; always an i64 |
| `Codecs.Decoder.LongC` | connectors/c/src/impulse_ring.c:177-182 | reads back every encoded i64 and stops right after it; on any bytes the value modulo 2^64 of a varint that ends within ten bytes, and 0 for any other |
| `Codecs.PythonDecoder.Long` | connectors/python/impulse_ring/avro.py:76-78 | reads back every encoded i64; from any cursor the exact value and where it ends, or an IndexError |
| `Codecs.Decoder.LongTs` | connectors/ts/src/avro.ts:71-74 | reads back every encoded i64 and stops right after it; on any bytes, and from a cursor past the end too, the exact value and cursor |
| `Codecs.LongReads` | connectors/go/avro.go:57-75 | what every decoder finds where a long was encoded, whatever follows |
| `Codecs.ByteStep` | connectors/python/impulse_ring/avro.py:68-74 | one turn of a decoder's loop, on words and on unbounded integers alike |
| `ChannelLists.ListChannelsGo` | connectors/go/connection.go:613-635 | on any bytes the loops end, and with exactly the list, or the panic, that the blocks found from the start make |
| `ChannelLists.ArrayIsReadGo` | connectors/go/connection.go:613-635 | for an array in any blocks, counted or counted negatively with a size, that list is the items of all of them in order |
| `ListAnswers.ListIsReadByBoth` | crates/core/src/proto.rs:154-168 | what the broker encodes as its answer to ListChannels is read back by Go's loop, and by Python's if the names are UTF-8 |
| `ListAgreement.ListsAgree` | connectors/go/connection.go:613-635 | on any bytes: where Python's loop returns a list, having read only longs of 64 bits and lengths that stay inside the data, Go's returns that list |
| `ListAgreement.InfosAgree` | connectors/go/connection.go:626-632 | and item by item likewise, from any cursor inside the data |
| `ListAgreement.LeastCountIsNone` | connectors/go/connection.go:621-624 | they part on the least int64 as a count: for Go, whose negation of it is itself, that block is empty |
| `PythonLists.ListChannelsPython` | connectors/python/impulse_ring/connection.py:485-504 | on any bytes, what the loop has come to after any number of turns: still running and where, an exception, or the list |
| `PythonLists.EndlessExactlyWhenItComesBack` | connectors/python/impulse_ring/connection.py:487-503 | on any bytes the loop never ends if and only if it comes back to a cursor it has been at, if and only if it still runs after twice as many turns as there are bytes; and between the two visits it reads a negative string length |
| `PythonLists.EndsUnlessALengthIsNegative` | connectors/python/impulse_ring/connection.py:487-503 | on any bytes the loop ends, by a list or an exception, in no more turns than there are bytes, unless a string length it reads is negative: the bytes left become fewer with every turn |
| `PythonLists.TurnEndsWhereItBegan` | connectors/python/impulse_ring/connection.py:489-503 | on a ten-byte body, a turn from cursor 7 ends at cursor 7 with the same count |
| `PythonLists.EndlessBody` | connectors/python/impulse_ring/connection.py:487-503 | on that body the loop never ends |
| `PythonLists.ANegativeLengthMayEnd` | connectors/python/impulse_ring/avro.py:97-101 | on another body it reads a negative length and ends with a list all the same |
| `PythonLists.ArrayIsRead` | connectors/python/impulse_ring/connection.py:485-504 | for an array in any blocks whose names are UTF-8, the loop returns the items of all of them in order |
| `ChannelLists.CountGo` | connectors/go/connection.go:617-624 | on any bytes: how many items follow, a negative count's sign dealt with and its size skipped, the least int64 counting none; zero exactly at the end |
| `ChannelLists.ItemsGo` | connectors/go/connection.go:625-633 | the inner loop, on any bytes: exactly the items there are, onto the end of the list, or a panic |
| `ChannelLists.InfoGo` | connectors/go/connection.go:626-632 | the five fields read one after another on any bytes, the fingerprint unsigned, or a panic |
| `ChannelLists.BytesGo` | connectors/go/avro.go:97-106 | any length: the bytes there, none for one negative or past the end, a panic for one so large that the check overflows |
| `ChannelLists.BoolGo` | connectors/go/avro.go:79-86 | true for any byte but zero, false at the end of the data, where the cursor stays |
| `PythonLists.ItemsPython` | connectors/python/impulse_ring/connection.py:493-502 | the inner loop, on any bytes: exactly the items there are, onto the end of the list, or an exception |
| `PythonLists.StringPython` | connectors/python/impulse_ring/avro.py:97-104 | from any cursor, any length, overlong or negative: the slice Python takes, if it is UTF-8, and the cursor moved by the length |
| `PythonLists.InfoPython` | connectors/python/impulse_ring/connection.py:494-502 | the five fields read one after another from any cursor, or an exception from the first that raises one |
| `Frames.FrameRoundTrip` | crates/core/src/frame.rs:45-77 | a frame decodes to itself, whatever follows it, exactly when its body's length fits the u32 field (and its fingerprint a u64) |
| `Frames.DecodedIsWire` | crates/core/src/frame.rs:57-77 | whatever decodes begins with that very frame's bytes |
| `Frames.Encode` | crates/core/src/frame.rs:45-54 | the header fields in their places, then the body |
| `ProtoTheorems.VersionsAreRead` | crates/core/src/proto.rs:370-503 | for every message, every accepted version of its schema and every record of it: the frame survives the wire, is routed to that message, is read compatibly with the missing fields defaulted, and is read strictly if and only if the version is the current one |
| `ProtoTheorems.CorrelationIsRead` | crates/core/src/proto.rs:508-527 | a dispatcher gets a reply's correlation id exactly for the seven routed replies, and gets the one that was sent |
| `ProtoTheorems.Build` | crates/core/src/proto.rs:430-456 | the catalog knows every version of all seventeen messages by its fingerprint, with its writer schema, and no other fingerprint |
| `ProtoTheorems.RecordAt` | crates/core/src/proto.rs:480-484 | a record of any schema reads back by that schema, whatever follows it |
| `ProtoTheorems.ReadIsTyped` | crates/core/src/proto.rs:480-484 | whatever is read by a schema has the schema's types, 32-bit numbers within 32 bits included |
| `ProtoTheorems.TextIsThere` | crates/core/src/proto.rs:480-484 | a text that is read is what lies behind a long of just its length; a negative or overlong length is not read |
| `ProtoTheorems.FlagIsThere` | crates/core/src/proto.rs:480-484 | a flag that is read is one byte, 0 or 1 |
| `ProtoTheorems.ShortRecord` | crates/core/src/proto.rs:486-490 | a body that ends where one more number is due cannot be read |
| `ProtoTheorems.StrictRead` | crates/core/src/proto.rs:486-490 | strict reading succeeds if and only if the version is the current one |
| `ProtoTheorems.FillsVersion` | crates/core/src/proto.rs:497-503 | filling the struct by name keeps a version's fields and defaults the rest |
| `ProtoTheorems.VersionShape` | crates/core/src/proto.rs:370-397 | every superseded schema lacks just its message's last field, a number with a default |
| `ProtoTheorems.ArrayAt` | crates/core/src/proto.rs:317-323 | an array of channels reads back |
| `Reconnects.SingleFlight` | crates/connector/src/client.rs:612-633 | installed epochs strictly increase, each installed at most once; of the threads that saw one epoch fail at most one installs; no two are inside at once |
| `Reconnects.LoserNeverBoots` | crates/connector/src/client.rs:613-616 | once the live epoch is past the one a thread saw fail, nobody ever boots or installs for that epoch again, whatever the run does: everyone who does, does so for the epoch of that very moment, or one installed later |
| `Reconnects.FailedReplayIsNotRetried` | crates/connector/src/client.rs:764-778 | once on the live epoch, a registration or replay that failed stays failed until the broker restarts again, whatever callers and the watcher do |
| `Reconnects.RestartRebinds` | crates/connector/src/client.rs:612-692 | from wherever a connection has settled, whatever failed before, some run with just one further restart registers it and re-establishes all it owns |
| `Reconnects.BoundExactlyByReplays` | crates/connector/src/client.rs:636-692 | after any run the connection is registered if and only if a registration has succeeded since the last swap of the transport, and a registration of its own is re-established if and only if its replay has |
| `Reconnects.InstallsWereBooted` | crates/connector/src/client.rs:616-620 | whoever installs a transport, or is about to, has had its bootstrap succeed |
| `Reconnects.FinishedReplayTriedAll` | crates/connector/src/client.rs:636-692 | a thread that finishes its replay has tried every registration of the connection since the swap |
| `Reconnects.ReplayCanFail` | crates/connector/src/client.rs:681-692 | such a state is reached: one restart, one registration left unbound |
| `Reconnects.StepInv` | crates/connector/src/client.rs:589-633 | every step keeps the mutex, and the chain of installed epochs |
| `Reconnects.RunInv` | crates/connector/src/client.rs:589-633 | the invariant holds after every run |

## Left out

- Weak-memory reordering, system calls, mapping and unlinking of segments, signal handling, logging and start-up checks: not modelled.
- A producer that dies while it holds the lock: the lock then stays taken, and the model has no such step.
- The connectors' own `push` returns at once for a record that can never fit, where the Rust one waits for its deadline; `RingMachine` follows the Rust one.
- `RingWords` wraps where a release build does; the overflow check of a debug build is not modelled.
- Blocking pushes and pops of one process are steps of `RingMachine`, not methods of `SharedRing`, since they wait for other threads.
- Client, channel and function ids are unbounded naturals; the code's i64 counters would take 2^63 registrations to overflow.
- Fingerprints are naturals on the bus; their passage as a signed long is modelled in the codec and the channel list.
- Reply texts, and the client's reading of a control reply, are not modelled; statuses are.
- The order in which a hash map gives up its entries is any order: lists of channels are sets.
- RpcTheorems.ResolvesToItsOwnAnswer: up to decoding the result's bytes into the caller's type, which is the Avro library's.
- The bound on a service's workers is proved for the pool; the machine of remote calls allows any number.
- Which callee a call is sent to may be stale; the proof rests on the schema checks at both ends, not on the cache.
- Reconnects.SingleFlight: the control calls of a replay are outcomes, success or failure, not messages.
- PythonLists.ListChannelsPython: follows the loop for as many turns as it is given, since it may not end; running out of memory is not modelled.
- ChannelLists.ListChannelsGo: running out of memory on a count far longer than the data is not modelled.
- C's channel-list loop does not skip the size after a negative count and is not modelled.
- Floats, schema parsing and fingerprint computation are not modelled; strings are bytes, and UTF-8 validity is a parameter.
- Proto: records are read up to the first failure; which error the Avro library reports is not modelled.
- The C++ wrapper, the TypeScript binding, the HTTP crate, demos and benchmarks are not modelled.
