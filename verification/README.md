# Verification of the outlay subscription pipeline

outlay exposes a Nostr relay over ContextVM; outlay-shim lets plain NIP-01
clients reach it. This project models the path a subscription and a publish
take through both programs, as transition systems whose runs are all
interleavings, and proves what holds in every run.

| file | contents |
|---|---|
| Wire.dfy | JSON values, client messages, the frames both programs make |
| Connection.dfy | one client connection of the shim: reader, writer, a task for each REQ and EVENT, the bounded channel |
| ConnectionSafety.dfy | its invariants: signals, data flow, single-writer merge |
| ConnectionShutdown.dfy | no deadlock, and a measure that bounds every shutdown |
| ConnectionClose.dfy | exactly when the client can still receive a chunk of a subscription, after its CLOSE too |
| ConnectionHistory.dfy | the connection against the client's message history |
| ConnectionEnds.dfy | why a subscribe task ended, what it had forwarded, and that an end is final |
| ConnectionInputs.dfy | what tasks, publishes and the writer know, against the events of the run |
| ConnectionOffers.dfy | what each await of the connection can be woken by |
| ConnectionLoops.dfy | the reader, cleanup and writer loops as a class updated in place, each a run of the machine |
| Proxy.dfy, ProxySafety.dfy, ProxyTheorems.dfy | the subscription multiplexer over one bounded broadcast log |
| ProxyHistory.dfy | calls, log and upstream REQs against the run, what a call can do next, the end of a call with a dead sink |
| Publish.dfy | the publish round trip across both programs |
| Pipeline.dfy, PipelineTheorems.dfy | connection, stream hop and proxy together, end to end |
| PipelineHistory.dfy | its halves as runs of their own, calls, replies and ends of streams against the run |
| PipelineProgress.dfy | everything upstream sent can reach the client |
| Lru.dfy | the LRU of the transport cache against the access history |
| TransportCache.dfy, TransportCacheSafety.dfy | concurrent callers, once-cells, failed builds, eviction, teardown |
| TransportCacheHistory.dfy | callers and lookups against the run, what a caller can do next |
| RelayUrls.dfy, RelayPipe.dfy, HtmlEscape.dfy, ShimConfig.dfy | loopback substitution, the frame pipe, HTML escaping, configuration lists |

A machine is a `State`, a guard `Enabled`, a function `Apply`, and runs
(`ValidRun`, `Exec`). Fields marked as history record what happened and are
read by no guard. An event is one atomic step, cut at the awaits of the source:
between two of them other tasks may run. Choices of `select!`, of the scheduler
and of the remote side are choices of the next event.

Each machine is held to its run from both sides. Safety says what every run
keeps; the history theorems say that what the state records is what the events
of the run brought, and nothing else; the `Offers` lemmas and the progress
theorems say that no step the program allows is refused.

Meanings given to the libraries: `Notify` keeps one permit, and a signal handed
to a waiter that then takes another branch goes back to being a permit; an mpsc
channel is a bounded queue that ends when all senders are dropped and refuses
sends when its receiver is; a broadcast channel is one log of which the newest
`capacity` entries are retained, and a receiver behind them lags; an open stream
is FIFO and may break or end at any time; a once-cell runs one initialiser at a
time and is empty again after a failed or dropped one; the LRU map touches on
`get` and evicts its last entry on `put` at capacity; a once-cell whose last
`Arc` is dropped takes its transport down.

Assumptions on the environment, written into the guards: a drawn upstream id is
used by no other call and carried by no earlier message, the upstream does not
answer a REQ before it was sent, and progress tokens are not reused.

Where code and documentation differ, the code is followed. The transport is
shared by all connections to one identity, not opened for each connection as
sections 5 and 6 of design/shim.md say. A CLOSE signals the task and the task
cancels its stream; it is not aborted. The smoke test that expects the client
to get no event after a CLOSE (crates/outlay-shim/tests/smoke.rs:264-351) waits
for 800 ms first, and so describes the usual case: no order between the signal
and the stream is promised. `ConnectionClose.ChunkFollowsClose` is a run in which
the client receives a chunk the task had not even read when the CLOSE was
processed. `ConnectionClose.ClientReceivesIff` and `ClientAfterClose` say for
every reachable state exactly when it can: the writer still runs, and a chunk of
the task is being written or queued, or the task is in its loop and does not read
the end of its stream next. Two comments of the transport cache disagree on who
keeps an evicted transport up: in-flight peers (transport.rs:84-86) or nobody, so
that their calls fail (transport.rs:40-46). `get` returns clones of the peer and
drops its clone of the `Arc`, so the second is what the code does.

## Model

| member | source | states |
|---|---|---|
| Wire.ParseRecognises | crates/outlay-shim/src/translate.rs:21-36 | a client array is recognised as a message if and only if it begins with that message's own array (for REQ, equals it); all other input is unrecognised |
| Wire.RecognisedIff | crates/outlay-shim/src/translate.rs:21-36 | text is a client message if and only if it is a JSON array that begins with the string REQ or CLOSE and a string, or with the string EVENT and anything |
| ConnectionSafety.InvStep | crates/outlay-shim/src/conn.rs:49-208 | every step of reader, tasks, publishes, writer and stream keeps all invariants of the connection |
| ConnectionSafety.SignalledExactlyOnce | crates/outlay-shim/src/conn.rs:70-118 | before cleanup a task is unsignalled exactly when it is the entry for its id, an id has at most one unsignalled task at any time, nobody is signalled twice, and after cleanup all were signalled once |
| ConnectionSafety.CancelNeverLost | crates/outlay-shim/src/conn.rs:141-185 | a signalled running task has its permit waiting or is tearing down; `handle.cancel` was called if and only if the signal was consumed on an established stream, once, with a token no other task holds |
| ConnectionSafety.SingleWriterMerge | crates/outlay-shim/src/conn.rs:49-59 | for each producer, delivered, in-flight and queued frames are what it enqueued, in order; never more than 256 queued; after a sink failure a prefix; all of them when the writer ends normally |
| ConnectionSafety.ForwardedPrefix | crates/outlay-shim/src/conn.rs:156-174 | the chunks of a task that reached the client are a prefix of the chunks its stream received |
| ConnectionHistory.SignalledIffSuperseded | crates/outlay-shim/src/conn.rs:79-109 | one task for each REQ and one publish for each EVENT, in order; a task is unsignalled if and only if no later REQ or CLOSE in the client's message history named its id |
| ConnectionHistory.FollowsHistory | crates/outlay-shim/src/conn.rs:70-109 | `subs` is at all times the owner relation computed from the message history alone |
| ConnectionHistory.OneNoticeEach | crates/outlay-shim/src/conn.rs:104-108 | each text frame that is no JSON array, or none beginning as a client message does, yields exactly one `["NOTICE","unrecognized frame"]` while the channel is open, and the reader sends nothing else |
| ConnectionHistory.ReadsUntilGone | crates/outlay-shim/src/conn.rs:72-121 | over every run the reader is in its loop if and only if no Close, error or end was read, there sending a NOTICE exactly when the last frame was no client message, and after that cleaning up until `subs` and its sender are dropped |
| ConnectionHistory.SocketFrames | crates/outlay-shim/src/conn.rs:73-78 | a frame can be read exactly while the reader waits; ping, pong and binary change nothing; a Close, error or end leads to the cleanup of exactly the ids in `subs` |
| ConnectionEnds.WhyFinished | crates/outlay-shim/src/conn.rs:141-185 | while the channel is open a finished task has forwarded every chunk it read, and ended only by its signal, its stream's end, a broken stream or a failed set-up; the last two it reported as exactly one CLOSED frame with its own id and the reason |
| ConnectionEnds.EndIsFinal | crates/outlay-shim/src/conn.rs:157-174 | of the items a task has read only the last can be anything but a chunk; after the end of its stream the task is finished, after a broken stream or a failed set-up it has only its CLOSED frame with that reason left to send |
| ConnectionInputs.InputsAreEvents | crates/outlay-shim/src/conn.rs:123-208 | over every run the items, token and set-up error of a task and the reply of a publish are exactly those its own events brought, in order; a task awaits `handle.cancel` exactly between its teardown and the return |
| ConnectionInputs.WriterFollowsRun | crates/outlay-shim/src/conn.rs:50-59 | over every run the writer has left its loop if and only if a send failed or the channel ended, remembers which, and is done if and only if it closed the socket after that |
| ConnectionOffers.TaskOffers | crates/outlay-shim/src/conn.rs:141-185 | in every reachable state each step of a subscribe task is possible exactly when the source allows it: a signalled task can leave set-up or its loop at once, whatever else it could do |
| ConnectionShutdown.NoDeadlock | crates/outlay-shim/src/conn.rs:50-59 | once the reader no longer waits for the client, some step that needs neither client nor remote side is enabled, unless reader and subscribe tasks are done and the writer is too or waits, with nothing queued, for publishes whose reply is outstanding |
| ConnectionShutdown.ShutdownBounded | crates/outlay-shim/src/conn.rs:112-121 | a shutdown run has at most as many steps as its weighted measure plus five for each stream item still arriving |
| ConnectionShutdown.ShutdownCompletes | crates/outlay-shim/src/conn.rs:112-121 | after the client is gone every run is bounded, and one that cannot be continued from inside has signalled and finished every task, answered or dropped every publish and closed the socket; with a silent remote side the same but for publishes that await their reply |
| ConnectionShutdown.SignalledAlone | crates/outlay-shim/src/conn.rs:141-185 | from every reachable state a signalled task can finish by its own and the writer's steps alone, from set-up and from its loop at once, without any answer or stream item |
| ConnectionClose.ClientReceivesIff | crates/outlay-shim/src/conn.rs:49-59 | in every reachable state some continuation gives the client a further chunk of a task if and only if the writer has not stopped and either a chunk of that task is being written or queued, or the task has not left its loop and reads no end of stream next; being signalled plays no part |
| ConnectionClose.ClientAfterClose | crates/outlay-shim/src/conn.rs:96-100 | the reader processing a CLOSE in any reachable state signals the task and takes its id out of `subs`; whether the client can receive a further chunk of it afterwards is exactly that condition on the state the CLOSE found |
| ConnectionClose.CanForwardIffNotMuted | crates/outlay-shim/src/conn.rs:156-184 | a task can still put a chunk into the channel in some continuation if and only if it is in its loop with no end of stream next and the channel can still take a frame |
| ConnectionClose.ChunkFollowsClose | crates/outlay-shim/src/conn.rs:96-100 | a concrete run: REQ, established, a chunk arrives unread, CLOSE processed with the channel empty; then the task reads, forwards, and the client receives the chunk |
| ConnectionLoops.Bridge.OnInbound | crates/outlay-shim/src/conn.rs:72-110 | one turn of the reader loop, fields updated in place, is the machine's reader step and keeps the invariant |
| ConnectionLoops.Bridge.Cleanup | crates/outlay-shim/src/conn.rs:112-119 | the cleanup loop, in any order of the map, is a run of the machine, empties `subs` and leaves every task signalled exactly once |
| ConnectionLoops.Bridge.DrainQueue | crates/outlay-shim/src/conn.rs:53-57 | the writer loop, fields updated in place, is a run of the machine: it delivers the frames before the first refusal in order, loses the refused one and leaves the rest |
| ConnectionLoops.Bridge.FinishWriter | crates/outlay-shim/src/conn.rs:50-59 | the whole writer task once all senders are gone is a run of the machine, through the channel end or a refusal, to the closed socket: every queued frame is delivered or, from the first refusal on, lost |
| Proxy.MapIsRelabelling | crates/outlay/src/proxy.rs:95-131 | a call forwards exactly messages tagged with its id and the shutdown, as the upstream's own frame with only the subscription id replaced, and stops exactly at a CLOSED |
| ProxySafety.InvStep | crates/outlay/src/proxy.rs:232-299 | every step of every call, of the upstream and of the sinks keeps all invariants of the multiplexer |
| ProxyTheorems.LagsIffBehind | crates/outlay/src/proxy.rs:268-282 | a call lags if and only if more than the channel's capacity is unread, and then loses exactly the excess |
| ProxyTheorems.ExactAccounting | crates/outlay/src/proxy.rs:252-290 | no message tagged with a call's id lies before its start; matching messages up to the cursor are counted exactly by those written, being written and skipped by lag |
| ProxyTheorems.WritesCutAtBreak | crates/outlay/src/proxy.rs:266-290 | writes are those of the turns taken; all carry the client's id, at most one is CLOSED and it is last |
| ProxyTheorems.WhyLoopEnds | crates/outlay/src/proxy.rs:266-290 | for every reachable call: it left its loop at a closed channel, a tick or a write that found the sink dead, a refused write, its own CLOSED or the shutdown, and at none of its earlier turns; a lag, a foreign message and an own EVENT or EOSE that went through leave it running |
| ProxyTheorems.WriteTurn | crates/outlay/src/proxy.rs:63-68 | a chunk is sent if and only if the sink accepted it, and the loop goes on if and only if it did, is still alive and the chunk was no CLOSED |
| ProxyTheorems.OutputIsRelabelledLog | crates/outlay/src/proxy.rs:95-131 | without lag the output equals the relabelled log from start to cursor; with lag it is a subsequence, each chunk from its own log position and its own upstream id |
| ProxyTheorems.NonInterference | crates/outlay/src/proxy.rs:244-290 | lag-free calls with the same ids that saw the same own messages wrote the same, in any two reachable states, whatever other calls' messages lay between |
| ProxyTheorems.InsertForeign | crates/outlay/src/proxy.rs:95-131 | inserting or deleting another call's message anywhere in the log leaves the call's relabelled output unchanged |
| ProxyTheorems.AtMostOneReceiver | crates/outlay/src/proxy.rs:244-250 | a tagged message is for at most one call even with equal client ids; a pool shutdown is for all |
| ProxyTheorems.SubscriptionConservation | crates/outlay/src/proxy.rs:259-298 | the open upstream ids are those of calls between successful subscribe and exit; each exited call unsubscribed its id exactly once, no other call did |
| ProxyTheorems.SilentAfterLoop | crates/outlay/src/proxy.rs:292-298 | after leaving the loop, so after closing its sink, a call writes nothing in any continuation |
| ProxyHistory.CallsAreBegun | crates/outlay/src/proxy.rs:232-262 | over every run there is one call for each `subscribe` with filters, in order, with the client's id and filters, listening from the next broadcast on; none for an empty list; the REQs sent upstream are exactly those of the calls, with their ids and filters |
| ProxyHistory.SinkClosedIfAlive | crates/outlay/src/proxy.rs:292-298 | over every run a call closes its sink on exit if and only if the sink was alive at that moment |
| ProxyHistory.CallOffers | crates/outlay/src/proxy.rs:252-298 | in every reachable state each step of a call is possible exactly when phase, unread messages and sink allow it |
| ProxyHistory.AbortedCallUnsubscribes | crates/outlay/src/proxy.rs:283-298 | a call whose sink has died can come to its end within five steps of its own, receiving nothing more, and then its upstream subscription is closed by exactly one unsubscribe |
| ProxyTheorems.SubscribeLoop | crates/outlay/src/proxy.rs:266-290 | the loop takes turns up to the first that ends it, told by message and sink, and writes exactly their chunks |
| Publish.OkFrameOfReply | crates/outlay-shim/src/conn.rs:190-208 | for any reply a server may give: an error is `["OK", own id, false, text]`; a result accepts if and only if its content holds `ok: true`, with the id and text it holds, else the own id and no text |
| Publish.OkFrameOfTrip | crates/outlay/src/proxy.rs:304-334 | the client gets `["OK", id, accepted, text]`: accepted if and only if an upstream success was recorded; the own id if and only if the upstream did not answer or the id was canonical; no text on success and else the first error |
| PipelineTheorems.InvStep | crates/outlay-shim/src/conn.rs:123-186 | every step of connection, hop and proxy keeps the link between a task and the call that serves it |
| PipelineTheorems.EndToEnd | crates/outlay-shim/src/conn.rs:156-174 | what the client received from a task is, in order, a prefix of its call's relabelled upstream messages without lag and a subsequence with lag; a chunk may cross while its `write` is awaited or although that then fails |
| PipelineTheorems.NothingLostAtRest | crates/outlay-shim/src/conn.rs:156-174 | when a subscription is at rest and never lagged, the client has exactly the relabelled upstream messages, first to last |
| PipelineProgress.AllCanArrive | crates/outlay-shim/src/conn.rs:156-174 | from every reachable state in which a served subscription runs, the parts alone can bring the client the whole log so far, relabelled from the call's start if it never lagged, up to a CLOSED if one ended it |
| PipelineTheorems.NoCrossDelivery | crates/outlay/src/proxy.rs:244-250 | every such frame carries the task's own id and is the image of its own log message with its own upstream id, which no other task's call has |
| PipelineTheorems.NothingWithoutCall | crates/outlay-shim/src/conn.rs:141-155 | a task no call serves delivers no stream frame |
| PipelineTheorems.PublishConservation | crates/outlay-shim/src/conn.rs:189-208 | an accepted EVENT enqueues exactly one OK frame while the channel is open, none before its reply, never two; its acceptance, id and text are those of its round trip, the answered id when it was answered |
| PipelineHistory.HalvesReachable | crates/outlay-shim/src/conn.rs:123-186 | connection and proxy inside a reachable pipeline are reachable on their own, so every theorem about one holds there |
| PipelineHistory.CallsAndReplies | crates/outlay-shim/src/conn.rs:135-155 | over every run a task is served exactly if its request reached the proxy, by a call with the upstream id drawn for it and the task's own id and filters; a publish was answered exactly if a round trip came back for it, and by that trip |
| PipelineHistory.EndsAreEvents | crates/outlay-shim/src/conn.rs:163-174 | over every run a stream breaks and ends in its task's hands exactly as it did on the way |
| Lru.RefinesAccessHistory | crates/outlay-shim/src/transport.rs:83-96 | an identity is cached if and only if fewer than `cap` distinct others were accessed since; its position is their number; no duplicates; never above `cap` |
| Lru.SameCellIff | crates/outlay-shim/src/transport.rs:87-96 | two accesses of an identity reach the same cell if and only if at every access between, fewer than `cap` others came since the previous one |
| TransportCacheSafety.InvStep | crates/outlay-shim/src/transport.rs:78-104 | every step of every concurrent caller keeps the cache invariant |
| TransportCacheSafety.CachedAreMostRecent | crates/outlay-shim/src/transport.rs:83-96 | the cached identities follow the history of lookups however callers interleave and builds fail |
| TransportCacheHistory.CallersAreAsks | crates/outlay-shim/src/transport.rs:78-104 | over every run the callers are the calls of `get` with their identities and relays, the history is the identities in the order of the lookups, and a caller that got a transport got one for the identity it asked for, with the relays of a caller that asked for the same and whose build succeeded |
| TransportCacheHistory.CallerOffers | crates/outlay-shim/src/transport.rs:97-103 | in every reachable state a caller can look up, build, share or be dropped exactly as its phase and its cell allow |
| TransportCacheSafety.OneBuildPerCell | crates/outlay-shim/src/transport.rs:97-103 | at most one build in flight and one transport ever built for each cell; a caller's transport is for its own key, with the relays of the caller that built it; same transport exactly when same cell |
| TransportCacheSafety.SharedIffNeverEvicted | crates/outlay-shim/src/transport.rs:33-45 | two successful callers of one identity share a transport if and only if it was never evicted between their lookups |
| TransportCacheSafety.ReadyWhileLive | crates/outlay-shim/src/transport.rs:40-46 | in every continuation a built transport is up in its cell exactly as long as the cache or a caller inside `get` holds the cell, and once torn down stays so |
| TransportCacheSafety.TransportUpIff | crates/outlay-shim/src/transport.rs:33-46 | the transport a caller was given is up if and only if, by the access history, its identity was never pushed out of the `cap` most recent ones since that lookup, up to now, or some caller is still inside `get` with its cell; else it was torn down |
| TransportCacheSafety.NoStuckCaller | crates/outlay-shim/src/transport.rs:97-102 | a caller with a cell can build, share, or waits for a build that can finish |
| TransportCacheSafety.LockedEntries.Lookup | crates/outlay-shim/src/transport.rs:87-96 | the locked section, updated in place, hands out the history's cell, a new one exactly on a miss, and leaves the `cap` most recent identities |
| RelayUrls.SubstituteSelfMeets | crates/outlay-shim/src/transport.rs:218-234 | length, order and third-party URLs kept, own URLs gone except the loopback itself, idempotent, identity without loopback |
| RelayUrls.DefaultDialsLoopback | crates/outlay-shim/src/transport.rs:189-208 | with no hints and no explicit public URLs every configured relay that parses becomes the loopback and no other changes |
| RelayUrls.ResolvedAt | crates/outlay-shim/src/transport.rs:189-234 | in all four cases, position by position: the hints, or the configured relays, each replaced by the loopback if and only if there is one and the URL's canonical form is that of an explicit public URL, or, with none given, of a configured relay |
| RelayPipe.ConversionsInverse | crates/outlay-shim/src/relay.rs:79-100 | the two conversions keep kind and payload and undo each other exactly off Close and raw frames |
| RelayPipe.Forward | crates/outlay-shim/src/relay.rs:46-69 | for every interleaving each side gets an in-order prefix of the other's converted frames, at most one frame lost; the pipe ends at the first end of a side, relay Close, raw frame or refused frame, and delivers nothing after it |
| HtmlEscape.EscIsSubstitution | crates/outlay-shim/src/nip11.rs:133-138 | the four chained replacements are one simultaneous substitution |
| HtmlEscape.EscRoundTrip | crates/outlay-shim/src/nip11.rs:133-138 | a left-to-right reader of the entities recovers the text |
| HtmlEscape.EscInjective | crates/outlay-shim/src/nip11.rs:133-138 | different texts escape differently |
| HtmlEscape.EscSafe | crates/outlay-shim/src/nip11.rs:133-138 | no raw `<`, `>` or `"` in the output |
| ShimConfig.ListRoundTrip | crates/outlay-shim/src/config.rs:112-126 | reading a list variable undoes joining non-empty, trimmed, comma-free entries |
| ShimConfig.ReparseStable | crates/outlay-shim/src/config.rs:166-173 | re-parsing the join of a non-empty parsed list gives it again |
| ShimConfig.PaddedList | crates/outlay-shim/src/config.rs:112-126 | a comma list is read as its entries in order, without the blanks around them and without empty ones |
| ShimConfig.ReadGives | crates/outlay-shim/src/config.rs:108-173 | what each variable, or its absence, makes of every field |
| ShimConfig.ReadFailsWith | crates/outlay-shim/src/config.rs:130-164 | reading fails if and only if the encryption, gift-wrap or relay variable has a value outside its list, with the error of the first of them |
| ShimConfig.ReadConfigUsable | crates/outlay-shim/src/config.rs:67-72 | a configuration that was read has a non-empty relay list and a public URL, the first explicit one or else the first relay |

## Helpers

Lemmas that spell out one definition and serve others: `WriterMovesAlong` of
ConnectionSafety (what the writer takes is delivered, in flight or recorded as
lost), `FailureIsRetryable` of TransportCacheSafety (after a failed or dropped
build a waiting caller can build), `HintsAndAllowlistWin` of RelayUrls (hints and
an explicit allowlist leave the configured relays no part). Others pin a
definition to literal frames, messages or names, so that no theorem stated
through it depends on how it is written: `ParsesItsArray` of Wire, `TaggedBy` of
Proxy, `BreaksIff`, `ReadTurn` and `EndTurn` of ProxyTheorems, `ReadsAppend` of
RelayPipe, `AnswerHolds` of Publish, `LiveIff` of TransportCacheSafety,
`BlankCharacters` and `LowerAt` of ShimConfig. `SenderOffers` and `WriterOffers` of ConnectionOffers, `PoolOffers`
of ProxyHistory, `RequestOffers`, `ReplyOffers` and `HalvesMoveFreely` of
PipelineHistory say which other steps are possible, and when.

## Left out

- Wall-clock time: connect, publish and poll durations are events that may happen at any point, so no detection time is claimed.
- Calls dropped in the middle of an await on the outlay side: a `subscribe` future that is dropped unsubscribes nothing, and no step drops one.
- Upstream abort delivery: that `handle.cancel` makes the serving call's sink inactive is the SDK's doing; a sink may become inactive at any time here.
- What a call on a torn-down transport returns: the cache says exactly when a peer's transport is down; cache and connection are not one machine, a connection meets a failed reply or a broken stream at any time.
- HTTP NIP-11 fetching, overlay and page layout, key parsing, routing, signals and both `main` functions.
- The start of `handle_ws`: a bad path or a failed transport closes the socket with a NOTICE before any of this begins.
- Closing both sockets when the relay pipe ends: it happens after all that is modelled and delivers nothing.
- `sink.start()` of a proxy call: part of the step that opens the subscription, its result is ignored by the source too.
- Numeric settings (timeouts, size limits, cache capacity) and the test-only relay pool of the configuration.
- JSON text: frames are values, so key order and number formatting of chunks are not modelled; rmcp's wording around error texts is not either.
- The colocated relay's own NIP-01 semantics, which belong to a library that is not part of this model.
- `subscribe_loop`, `publish_once` and `TransportCache::get` after the lock: modelled as steps of the machines only, since they do nothing between awaits but change their own locals.
