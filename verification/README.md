# Verified model of an end-to-end encrypted relay chat

The system is a web client that encrypts with X3DH and the Double Ratchet, a socket server that
stores and forwards opaque frames, and an auth service that hands out prekey bundles. This project
models the client's crypto and session layer, the server's router and message log, and the one-time
prekey pool, and proves what they keep over every run.

`dafny verify dfyconfig.toml` verifies everything.

## How the model is built

| file | models | main results |
|---|---|---|
| `Crypto.dfy` | symbolic terms for keys, derivations and ciphertexts | Diffie-Hellman agreement, chain positions never coincide |
| `Ratchet.dfy` | `ratchet.ts` on states that every call copies, with the skip loop as a loop | the loop is its closed form |
| `RatchetHistory.dfy` | the shared history two honest parties stand on | one decrypt of any honest message, in full |
| `TwoParty.dfy` | two parties and a network that reorders, drops and repeats | refinement of an ideal channel, no key reuse |
| `RatchetRuns.dfy` | whole two-party runs | one root chain, exact cache, order independence |
| `CacheGrowth.dfy` | the size of the cache | exact growth, and exactly when MAX_SKIP caps it |
| `X3dh.dfy`, `Messaging.dfy` | `x3dh.ts`, `messaging.ts` | both sides agree exactly when the one-time prekey agrees |
| `ChatClient.dfy` | the session layer of `useChat.ts`, as a class proved against functions | each handler's whole new state |
| `ClientHandlers.dfy` | what those functions mean, key by key and over the whole send loop | the loop serves each device from its own session, and stops exactly at the first throw |
| `Mesh.dfy`, `Recovery.dfy`, `OneWay.dfy` | any number of devices, interleaved in any way | every envelope opens, exactly when its prekey is held; a reset recovers; no DH step after an init |
| `Persistence.dfy` | memory against the sessions table, driven by acks | what is stored at every point, and exactly which dropped sessions a reload brings back |
| `Prekeys.dfy` | prekey table, client list, replenishment in phases | conservation whatever inserts fail, and the exact guard replenishment needs |
| `Replenishment.dfy` | replenishment runs that do not overlap | they need no other guard, and refill the pool exactly when it is low |
| `Router.dfy`, `RouterMaps.dfy` | the router, as a class proved against functions | the three maps stay consistent, and exactly which events the registry does not survive |
| `RouterViews.dfy` | every event at one connection, in the registry, on other servers' channels, in the table | each event is its views, and exactly when a registry entry outlives its connection |
| `Mailbox.dfy`, `MailboxRuns.dfy` | one device's cursor over its mailbox, across reconnects | the device reads exactly a prefix of the log |
| `MailboxGaps.dfy` | the same with keys that expire and a Redis that fails | exactly when the prefix is lost |
| `ClientRuns.dfy` | the delivery handler behind that server | the client ends where handling its log row by row would lead |
| `ServerPromises.dfy` | acks and the registry | exactly when an acked frame is stored and a delivery sent, and runs where it is not |
| `Storage.dfy`, `Encoding.dfy`, `SavedSessions.dfy` | session records, base64, map keys, byte strings | exact round trips, injective encodings, reloads that change no run |
| `SessionTable.dfy` | the table of records by id, saved to, deleted from and loaded | a load finds the map of sessions, name by name |

Private keys are numbers, a shared secret is an unordered pair of them, and derivations are free
constructors, so nothing about cryptography is assumed: what the protocol needs of the algebra is
proved from the terms. A random key is a fresh number; a key drawn by a decrypt that fails is thrown
away by the code, so its number may be drawn again. Message numbers, cursors and key ids are
unbounded integers. A thrown exception is an `Err` value, and the caller keeps its old state.

Handlers run one at a time, as in the browser's event loop and in the router's receive loop; where
the code awaits an answer, the model has separate steps and lets everything else happen in between.

## Premises

Each is something the code relies on and does not enforce.

- Messages and headers are honest: every frame was produced by one of the modelled clients.
- The log claims are for one server. No connection id is used twice on it, and no other server
  publishes to it.
- The calls to Redis for one event succeed or fail together, and so do those to Postgres; each event
  says which answer. The code ignores a failed registration and takes a failed registry read for an
  empty registry (socket_server/src/redis_helper.rs:17-33). It gives a registry key 90 seconds, which
  nothing but another registration extends.
- `MailboxRuns` asks that the registry goes on covering the device's own mailbox and that Redis
  answers when a frame is sent to it; other mailboxes are free. `RouterMaps.HandleCovers` names the
  two events that end the coverage of a mailbox, `MailboxGaps.PrefixUntilCrossed` drops the premise
  and says exactly when the prefix is lost, and `ServerPromises.ExpiryLosesDelivery` is a run that
  loses it.
- Each insert of a prekey upload may fail by itself; which ones do is a parameter.
- A bundle's one-time prekey is one that the addressee has made, perhaps in a batch it does not hold
  yet. `Prekeys.GuardedRuns` says when the pool guarantees that.
- One page lifetime, acks in the order of the sends, and database writes that succeed in order.

## Where the code and its documentation differ

- README.md:39 of the repository says that MAX_SKIP caps the cache. The code bounds each gap only;
  `RatchetRuns.CacheUncapped` gives, for every m, an honest run that caches m times MAX_SKIP keys.
  `CacheGrowth.CacheGrowsExactly` gives the growth of each decrypt from state and header alone, and
  `CacheGrowth.CapIsExact` shows that the cap holds throughout a run exactly if every delivery that
  opens had that much room. `RatchetRuns.CacheBound` is the bound that always holds.
- README.md:34 says that every message is in Postgres before its ack. An insert that fails, or whose
  message id is taken, yields number 0 and is acked all the same
  (socket_server/src/commands/send.rs:20-45). `ServerPromises.AckedIsStored` says exactly when an
  acked frame is stored, and `ServerPromises.AckWhileDatabaseDown` and
  `ServerPromises.AckWithoutStore` give runs in which it is not.
- README.md:43 says that new prekey ids continue from the maximum "to avoid collision". Two
  replenishments that overlap, or one whose answer is lost, do collide: `Prekeys.OverlapMismatch`
  gives the interleaving and `Prekeys.GuardIsExact` the exact condition.
- README.md:37 says that connections are tracked in Redis. The registry loses track in both directions:
  `RouterMaps.HandleCovers` says exactly which events leave a connection out of it, and
  `RouterViews.StrandsExactly` which leave an entry behind without its connection.
- README.md:44 says that a reset drops all sessions of the contact from the database. An ack that is
  still on its way stores a dropped session again, as in `Persistence.LateAckUndoesReset`;
  `Persistence.DropsUndone` says, over all runs, exactly which sessions come back.
- The comment at web_client_2/src/crypto/ratchet.ts:161-165 promises three shapes for each byte
  field. The values of `skippedKeys` are restored from two of them only: `Storage.RestoreIsExact` is
  the exact condition and `Storage.ObjectValueIsLost` a record that is not restored.
- README.md:29 says that all messages are encrypted with the Double Ratchet. The client sends on
  outbound sessions and receives on inbound ones, so after the init of a session nothing takes
  another DH step: `OneWay.NoFurtherDhStep`. Keys then move along one chain until the next init.

## Model

| member | source | states |
|---|---|---|
| Crypto.DHAgreement | web_client_2/src/crypto/x3dh.ts:149-157 | Swapped public keys give one secret, and a third private key gives another. |
| Crypto.AdvanceInjective | web_client_2/src/crypto/ratchet.ts:38-47 | Two positions on chains that start from KDF_RK outputs have equal chain keys only if chain and position are equal. |
| Ratchet.SkipMessageKeys | web_client_2/src/crypto/ratchet.ts:57-71 | The loop ends with the iterated chain key and exactly the keys of Nr..until-1 added to the map, or fails exactly when the gap exceeds MAX_SKIP or a key is missing. |
| RatchetHistory.KeysDistinct | web_client_2/src/crypto/ratchet.ts:30-47 | Over all epochs and both parties, different places have different message keys. |
| RatchetHistory.DecryptHonest | web_client_2/src/crypto/ratchet.ts:184-241 | Any honest message decrypts iff it was not received and its gaps are within the limit, and the new state is right for the history again; covers cached, current-chain and new-epoch messages. |
| RatchetHistory.ReplayOldEpoch | web_client_2/src/crypto/ratchet.ts:196-235 | A replay from an older epoch is not cached and is not under the current ratchet key, so it takes the DH branch, and decryption fails there. |
| RatchetHistory.DecryptReplay | web_client_2/src/crypto/ratchet.ts:184-241 | A message that was received never decrypts again, from whatever epoch. |
| TwoParty.StepKeeps | web_client_2/src/crypto/ratchet.ts:77-139 | Every send and every delivery, of any message at any time, keeps the invariant that ties both states to the shared history. |
| TwoParty.DeliversExactlyOnce | web_client_2/src/crypto/ratchet.ts:184-241 | In every reachable world any sent message decrypts iff it is its first delivery and within the limit, and then to the text that was sent. |
| TwoParty.RefinesChannel | web_client_2/src/crypto/ratchet.ts:123-241 | Each step is a step of a channel that hands over each sent message at most once, in any order, to its addressee. |
| TwoParty.NoKeyReuse | web_client_2/src/crypto/ratchet.ts:123-139 | No two encryptions of a run, by either party, share a message key or a pair of ratchet key and number. |
| RatchetRuns.OneRootChain | web_client_2/src/crypto/ratchet.ts:218-228 | The parties are always exactly one root-key step apart on one root chain. |
| RatchetRuns.NewKeyIsSuccessor | web_client_2/src/crypto/ratchet.ts:209-229 | A header with a new ratchet key carries the peer's current key, the peer is one step ahead, and pn is exactly the length of the chain it replaces. |
| RatchetRuns.LimitErrorIsExact | web_client_2/src/crypto/ratchet.ts:57-58 | A decrypt reports too many skipped messages iff a gap exceeds the limit, the old chain's first, and names that gap. |
| RatchetRuns.ReceivingChain | web_client_2/src/crypto/ratchet.ts:231-240 | CKr is one start key advanced Nr times, every message of that chain is sealed under its own position on it, none received has number Nr or more, and number Nr - 1 was received if Nr > 0. |
| RatchetRuns.CacheHoldsPassedOver | web_client_2/src/crypto/ratchet.ts:196-214 | A message's key is cached iff it was passed over and not received since, and it is the key the sender used. |
| RatchetRuns.CacheHoldsNothingElse | web_client_2/src/crypto/ratchet.ts:57-71 | Every cached name belongs to a message sent to that party. |
| RatchetRuns.DecryptGrowth | web_client_2/src/crypto/ratchet.ts:210-232 | One successful decrypt, in any state and of any packet, honest or not, adds at most 2 * MAX_SKIP keys. |
| RatchetRuns.CacheBound | web_client_2/src/crypto/ratchet.ts:57-71 | Over a run the cache holds at most 2 * MAX_SKIP keys for each successful decrypt. |
| RatchetRuns.CacheUncapped | web_client_2/src/crypto/ratchet.ts:57-71 | For every m an honest run reaches a cache of m * MAX_SKIP keys. |
| CacheGrowth.CacheGrowsExactly | web_client_2/src/crypto/ratchet.ts:196-232 | In every reachable world a delivery that decrypts changes the cache by exactly -1, n - Nr, or n plus pn - Nr, as state and header say beforehand. |
| CacheGrowth.CapIsExact | web_client_2/src/crypto/ratchet.ts:57-71 | Both caches stay within MAX_SKIP throughout a run iff every delivery that opens has room for that growth. |
| RatchetRuns.StateDetermined | web_client_2/src/crypto/ratchet.ts:184-241 | The history, the position on it and the set of received messages determine every field of the state: Nr, CKr and the cache among them. |
| RatchetRuns.OrderIndependent | web_client_2/src/crypto/ratchet.ts:184-241 | Two orders of delivering one set of messages, over one chain or two, end in the same world but for the order of the receipts. |
| X3dh.MasterAgreement | web_client_2/src/crypto/x3dh.ts:140-230 | Both sides derive one master secret iff the one-time prekey's id finds its own private half, or there is none. |
| X3dh.FindStable | web_client_2/src/crypto/x3dh.ts:190-196 | Prekeys added later do not change what an id finds. |
| Messaging.InitRoundTrip | web_client_2/src/crypto/messaging.ts:40-110 | A first message always encrypts; its init opens iff the one-time prekey agrees, with the text, matching chains and the same typing key. |
| Messaging.MsgRoundTrip | web_client_2/src/crypto/messaging.ts:70-115 | Matching sessions open each other's next frame and match again. |
| Messaging.InitStartsRun | web_client_2/src/crypto/messaging.ts:48-110 | The two sessions after a first message are a reachable world of the two-party run. |
| Messaging.SessionsCanSend | web_client_2/src/crypto/messaging.ts:40-116 | Every session the two functions return can encrypt. |
| ChatClient.ChatClient.HandleDelivery | web_client_2/src/hooks/useChat.ts:206-256 | The delivery handler's whole new state, the failed decrypt and the foreign device included, is that of `OnDelivery`; the `ClientHandlers` rows say what that is. |
| ChatClient.ChatClient.HandleAck | web_client_2/src/hooks/useChat.ts:182-190 | An ack that is waited for stores its frame's state under its session and no other and is waited for no longer; memory is untouched, and any other ack or the same one again changes nothing. |
| ChatClient.ChatClient.SendToBundles | web_client_2/src/hooks/useChat.ts:294-333 | The send loop's state, frames and outcome, with skips and a throw in the middle, are those of `SendAll`, which `ClientHandlers.LoopServesEach` spells out. |
| ChatClient.ChatClient.DeleteOutbound | web_client_2/src/hooks/useChat.ts:239-246 | The loop over a snapshot of the keys deletes exactly the user's outbound sessions, in memory and table. |
| ChatClient.ChatClient.ResetSession | web_client_2/src/hooks/useChat.ts:402-420 | A reset deletes exactly the contact's outbound sessions and the inbound sessions of its known identity keys. |
| ClientHandlers.CursorIsLarger | web_client_2/src/hooks/useChat.ts:208-212 | From every state and for every frame the stored cursor becomes the larger of itself and the delivery's number. |
| ClientHandlers.UnopenedChangesNothing | web_client_2/src/hooks/useChat.ts:214-255 | A frame for another device, or one that does not decrypt, moves the cursor and nothing else. |
| ClientHandlers.OpenedIsExact | web_client_2/src/hooks/useChat.ts:221-247 | A frame that opens: one text shown; under every key, in memory and table, the new inbound session, a session dropped by a first message, or what was there; a new identity key put down as the sender's and no known one changed; all else as before. |
| ClientHandlers.NumbersSteerTheCursorOnly | web_client_2/src/hooks/useChat.ts:206-256 | Whatever number a delivery carries and wherever the cursor is, all but the cursor ends the same. |
| ClientHandlers.ResetIsExact | web_client_2/src/hooks/useChat.ts:402-420 | A reset deletes exactly the sessions to the contact's devices and from its known identity keys, in memory and table, and changes nothing else. |
| ClientHandlers.LoopServesEach | web_client_2/src/hooks/useChat.ts:294-333 | For bundles of different devices the loop throws iff some served bundle's encryption does, at the first such; up to there each verified bundle but the skipped one gets one frame, in order, to the recipient's mailbox, made from that device's own session as it was before the loop; its new state is in memory and awaits that frame's ack; nothing else changes. |
| Mesh.StepKeepsPair | web_client_2/src/hooks/useChat.ts:216-333 | Each step of any device keeps a sender and a receiver in step, so that after the frames in flight the receiver stands where the sender does, unless the receiver resets that contact or processes an init whose prekey it does not hold. |
| Mesh.EveryEnvelopeOpens | web_client_2/src/hooks/useChat.ts:206-333 | In every interleaving without resets, crossing inits included, a device has shown exactly the frames addressed to it, in log order, iff it held the prekey of each init when it processed it; otherwise it stays behind for good. |
| OneWay.NoFurtherDhStep | web_client_2/src/hooks/useChat.ts:221-333 | In every run, resets included, outbound sessions stay one and inbound sessions two root steps from their X3DH secret, and a "msg" that opens moves no ratchet key. |
| Recovery.ResetForgets | web_client_2/src/hooks/useChat.ts:402-420 | A reset leaves no session for sending to, or receiving from, a known device of the contact. |
| Recovery.StaysForgotten | web_client_2/src/hooks/useChat.ts:236-246 | A dropped outbound session stays dropped until the device sends there. |
| Recovery.NextSendIsInit | web_client_2/src/crypto/messaging.ts:48-69 | The next send without a session is an init that opens whatever the addressee holds. |
| Recovery.ResetRecovery | web_client_2/src/hooks/useChat.ts:236-246 | From any session tables: after a reset, the next send is an init, the contact opens it when it holds the named prekey, and every frame it sends afterwards opens at the resetter, whatever was in flight. |
| Persistence.StoredWhenQuiet | web_client_2/src/hooks/useChat.ts:182-190 | In every page life, a session in memory without a pending ack is stored as it is; an inbound one always is. |
| Persistence.StoredIsLastAcked | web_client_2/src/hooks/useChat.ts:182-190 | At every point of every page life, acks pending or not, the table holds each outbound session in the state of its last acked frame: nothing after a drop that no ack followed, and what was loaded before either. |
| Persistence.PendingOrigin | web_client_2/src/hooks/useChat.ts:299-310 | Every pending ack was made by one send of the run under its message id, and carries the state that memory held right after that frame. |
| Persistence.StoredOrigin | web_client_2/src/hooks/useChat.ts:182-333 | So a stored outbound session is what was loaded or what memory held right after some frame of it. |
| Persistence.ReloadFindsMemory | web_client_2/src/hooks/useChat.ts:299-310 | If no drop meets a pending ack, the table after the last ack is an exact copy of memory. |
| Persistence.DropThenReload | web_client_2/src/hooks/useChat.ts:239-246 | When only acks follow it, a drop, by reset or by init, survives a reload iff no ack of a dropped session was pending. |
| Persistence.DropsUndone | web_client_2/src/hooks/useChat.ts:182-333 | Over every run of a page, a reload brings back exactly the dropped sessions whose last drop met a pending ack of theirs and that no send has made anew, and equals memory iff there are none. |
| Persistence.LateAckUndoesReset | web_client_2/src/hooks/useChat.ts:402-420 | On a page without sessions: one message, a reset before its ack, the ack; the dropped session is stored again. |
| Prekeys.GenerateOPKBatch | web_client_2/src/crypto/keys.ts:154-168 | The loop yields consecutive ids from the start id, and public halves of its own private keys. |
| Prekeys.PrekeyTable.UploadNewDeviceOpks | auth_service/src/key_handlers.rs:277-293 | The upload inserts key by key, ignores an id the device already has, and changes no other device's pool. |
| Prekeys.PrekeyTable.GetAllPrekeyBundles | auth_service/src/key_handlers.rs:144-186 | For distinct devices, each gets the head of its own pool or nothing, loses exactly that, and no other pool changes. |
| Prekeys.ConsumeAllHeads | auth_service/src/key_handlers.rs:144-186 | The same of the fold over the table that specifies the loop. |
| Prekeys.UploadIsStore | auth_service/src/key_handlers.rs:282-291 | An upload changes the uploading device's pool only. |
| Prekeys.ConsumeIsOldest | auth_service/src/key_handlers.rs:146-160 | A bundle request takes the oldest key of one device's pool and touches no other. |
| Prekeys.StepKeeps | web_client_2/src/hooks/useChat.ts:361-379 | Every step of guarded replenishments, uploads with failed inserts included, keeps ids 1..n, one live batch, and each uploaded key in the pool, handed out or refused, at most once. |
| Prekeys.GuardedRuns | web_client_2/src/hooks/useChat.ts:361-379 | In guarded runs, whatever inserts fail, ids are exactly 1..n, the keys handed out and then those in the pool ascend, every uploaded key is among them or was refused, and a handed-out key finds its private half iff the client holds its batch. |
| Prekeys.GuardIsExact | web_client_2/src/hooks/useChat.ts:365-379 | Generating a batch is safe iff no other batch is on its way, and none has been stored, even in part, without the client learning of it; otherwise some interleaving, with bundle requests that take the oldest key, makes an id find a wrong key. |
| Prekeys.OverlapMismatch | web_client_2/src/hooks/useChat.ts:169-220 | From every new device's pool, replenishments that overlap can reach such a mismatch. |
| Replenishment.SequentialRuns | web_client_2/src/hooks/useChat.ts:361-379 | If each replenishment is asked for when the ones before are over, everything guarded runs promise holds, and the pool never holds more than at first or 12 keys. |
| Replenishment.RefillsExactlyWhenLow | web_client_2/src/hooks/useChat.ts:365-379 | A whole run adds one batch with the next ids to the pool and to the client's list iff it counted fewer than 3 keys, and otherwise changes neither. |
| Router.RouterState.Disconnect | socket_server/src/state.rs:44-55 | The client is in none of the maps, its mailbox's list keeps exactly the others and goes if there are none, and no other entry changes. |
| RouterMaps.DisconnectKeeps | socket_server/src/state.rs:44-55 | From consistent maps a disconnect leads to consistent maps and only removes. |
| Router.RouterState.DeliverToMailbox | socket_server/src/state.rs:73-122 | The loop over a snapshot sends to each live connection in turn, disconnecting those whose channel is closed. |
| Router.RouterState.SendCommand | socket_server/src/commands/send.rs:11-79 | Insert, ack, then each server of the registry once: local delivery, or the payload appended to that server's channel; the `RouterViews` rows say what each connection, channel and the table then hold. |
| Router.RouterState.AuthenticateCommand | socket_server/src/commands/authenticate.rs:13-88 | On success both maps, the registry and the backlog; on failure nothing. |
| Router.RouterState.ReceivedEvent | socket_server/src/handlers/received.rs:8-149 | Guards in the code's order, each with its own reply, then the command. |
| Router.RouterState.HandleEvent | socket_server/src/router.rs:32-60 | One event to completion is `Handle`, whose views the `RouterViews` rows give. |
| RouterMaps.HandleKeeps | socket_server/src/state.rs:44-122 | Every event keeps the maps inverse to each other, lists duplicate-free and non-empty, mapped connections live, also through disconnects inside delivery loops. |
| RouterMaps.HandleCovers | socket_server/src/redis_helper.rs:17-33 | A mailbox's coverage (the registry names this server for each of its connections) survives an event iff the event is neither the expiry of that mailbox's key while it has connections nor an open connection authenticating for it, not yet named, while Redis fails. |
| RouterMaps.HandleAll | socket_server/src/router.rs:32-60 | From consistent maps every sequence of events leads to consistent maps. |
| RouterViews.EventAt | socket_server/src/router.rs:32-60 | For every event and connection: its mailbox, whether it is still held, and exactly which frames its channel gains in which order, every notice and typing frame and the published delivery included. |
| RouterViews.ChannelsOnlyByConnecting | socket_server/src/handlers/connected.rs:6-25 | A channel appears iff a client connects whose channel is open, and starts with the welcome. |
| RouterViews.ViewsDetermine | socket_server/src/state.rs:44-122 | Consistent routers that look the same at every connection have equal maps, up to the order of the lists. |
| RouterViews.EventBehind | socket_server/src/commands/send.rs:20-77 | For every event, entry by entry: the registry gains a connection that joins and loses one that disconnects or expires while Redis answers, and nothing else; each other server's channel gains the frame with its number iff Redis answers and a connection of the mailbox is registered there; the table gains the stored frame. |
| RouterViews.SentAcrossServers | socket_server/src/handlers/pubsub.rs:7-30 | A frame posted on one server, for a mailbox registered at another, is the last publication on that server's channel, and handling it there queues the delivery with its number at every open connection of the mailbox. |
| RouterViews.StrandsExactly | socket_server/src/handlers/disconnected.rs:3-13 | No registry entry outlives its connection through an event iff the event is neither a disconnect while Redis is down nor one that has frames for a registered or joining connection whose writer has ended. |
| RouterViews.StrandedStays | socket_server/src/redis_helper.rs:17-26 | An entry whose connection is gone stays through every event but the expiry of its mailbox's key. |
| Mailbox.HandleSendAt | socket_server/src/commands/send.rs:20-77 | At any connection a send is the ack if it is the sender, then the delivery iff the registry read yields this server and the connection is authenticated for the mailbox. |
| Mailbox.BacklogIsRest | socket_server/src/commands/authenticate.rs:31-49 | The query with a reader's cursor selects exactly the part of the log it has not read. |
| MailboxRuns.StepKeeps | web_client_2/src/hooks/useChat.ts:162-212 | Every server event, connect, frame and disconnect that leaves the device's own mailbox covered keeps the channel feeding the rest of the log, and the cursor never decreases. |
| MailboxRuns.ReadsLogPrefix | socket_server/src/commands/authenticate.rs:31-85 | Over any disconnects and reconnects, whatever befalls other mailboxes, the numbered deliveries processed are exactly a prefix of the ascending log, and the cursor is the last of them and at most the highest number; without a failed insert to the mailbox nothing else was processed. |
| MailboxRuns.DrainedIsComplete | socket_server/src/commands/send.rs:65-77 | An authenticated connection that drained its channel has read the whole mailbox. |
| ClientRuns.CursorIsTheHandlers | web_client_2/src/hooks/useChat.ts:208-212 | From the same cursor, the handler and the reader of the mailbox runs have the same cursor after any frame. |
| ClientRuns.ClientFollowsLog | web_client_2/src/hooks/useChat.ts:162-256 | In every such run a client that handles what its device processes has the reader's cursor and, if no insert failed, is but for the cursor's numbering in the state that handling the first rows of its log in order leads to, as the claims about many devices take for granted. |
| MailboxGaps.ObserveKeeps | web_client_2/src/hooks/useChat.ts:206-212 | With expiring keys and failing Redis allowed, every step keeps the prefix until a mark is crossed and, once it is, a row of the log that is behind the cursor, was never processed and is not among the frames to come. |
| MailboxGaps.PrefixUntilCrossed | socket_server/src/redis_helper.rs:17-33 | Over every run, whatever happens to the registry and to Redis, the numbered deliveries processed are a prefix of the log iff the device never took one queued, on the same connection, after a frame had passed it by. |
| ServerPromises.AckedIsStored | socket_server/src/commands/send.rs:20-45 | An open authenticated sender always gets its ack next; the frame itself is then stored iff the database answered and the message id was new, or the same frame was there before. |
| ServerPromises.AckWithoutStore | socket_server/src/commands/send.rs:20-45 | A run of router events in which one message id serves two frames: both are acked, the second is not stored. |
| ServerPromises.AckWhileDatabaseDown | socket_server/src/commands/send.rs:20-45 | A run of router events from a new router: a frame sent while the database is down is acked and stored nowhere. |
| ServerPromises.DeliveredIffRegistered | socket_server/src/commands/send.rs:65-77 | An open connection of the mailbox, the sender's own included, gets the delivery iff Redis answers and the registry names this server for the mailbox; its own ack comes first. |
| ServerPromises.ExpiryLosesDelivery | socket_server/src/redis_helper.rs:17-21 | A run of router events from a new router in which a key expires: the frame sent then is passed over by the cursor of the next one, and no later authentication brings it. |
| Storage.RestoreIsExact | web_client_2/src/crypto/ratchet.ts:145-182 | A stored session is restored exactly, in whatever shapes its bytes come back, iff no non-empty skipped key comes back as a plain object. |
| Storage.NewMapIsPointwise | web_client_2/src/crypto/ratchet.ts:177-179 | Restoring a map from entries with distinct keys keeps all of them, in order. |
| Storage.MapSetIsSet | web_client_2/src/crypto/ratchet.ts:177-179 | Setting a key changes what is under that key only; an old key keeps its place and a new one goes last. |
| Storage.RoundTrip | web_client_2/src/crypto/ratchet.ts:145-182 | A record that comes back as it was put restores the session. |
| Storage.OldRecordRestores | web_client_2/src/crypto/ratchet.ts:177-181 | A record without cached keys and typing key is restored with no cached keys, 32 zero bytes, and every other field exact. |
| SessionTable.OtherNamesStay | web_client_2/src/hooks/useChat.ts:117-121 | Saving or deleting under one name leaves the record under every other name. |
| SessionTable.LoadFindsKept | web_client_2/src/hooks/useChat.ts:431-434 | After any saves and deletions, records coming back in any order and shape, a load has a session under exactly the names the map of sessions has, each equal to the map's iff none of its cached keys came back as an object. |
| Storage.ObjectValueIsLost | web_client_2/src/crypto/ratchet.ts:177-179 | A single skipped key of any name and any non-empty bytes that comes back keyed by index is restored empty. |
| SavedSessions.EncodedNamesDistinct | web_client_2/src/crypto/ratchet.ts:57-66 | The texts under which a ratchet state's skipped keys are kept are all different. |
| SavedSessions.RestoreReadsTheState | web_client_2/src/crypto/ratchet.ts:145-182 | What comes back for a saved ratchet state reads as that state and no other, or as none if a skipped key came back as a plain object. |
| SavedSessions.ReloadsChangeNothing | web_client_2/src/crypto/ratchet.ts:145-182 | Saves and reloads of either party at any points of a two-party run change no later encrypt or decrypt: the world is that of the run without them. |
| SavedSessions.StoredReachable | web_client_2/src/crypto/ratchet.ts:145-182 | So a run with saves and reloads is in a reachable world, and all that is proved of reachable worlds holds of it. |
| SavedSessions.PlainCodingFaithful | web_client_2/src/crypto/ratchet.ts:8-19 | The terms of a state can be written as bytes injectively, as those results ask. |
| Encoding.Base64RoundTrip | web_client_2/src/crypto/x3dh.ts:48-54 | Decoding an encoded byte string gives it back, so the text is injective. |
| Encoding.Base64Examples | web_client_2/src/crypto/x3dh.ts:48-54 | Four of the examples in section 10 of RFC 4648, padding included. |
| Encoding.SkippedNamesDistinct | web_client_2/src/crypto/ratchet.ts:63-66 | Equal `dh:n` texts mean equal keys and equal numbers. |
| Encoding.DecimalReadsBack | web_client_2/src/crypto/ratchet.ts:63-66 | The number in a name is its decimal numeral without leading zeros. |
| Encoding.SessionNamesDistinct | web_client_2/src/hooks/useChat.ts:299-323 | Outbound and inbound session keys never collide and are injective. |
| Encoding.PrefixPicksOneUser | web_client_2/src/hooks/useChat.ts:240-241 | The prefix `user:` matches exactly that user's outbound sessions. |
| Encoding.ArraysEqual | web_client_2/src/crypto/ratchet.ts:49-55 | The loop decides equality of contents. |
| Encoding.ConcatBytes | web_client_2/src/crypto/x3dh.ts:37-46 | The filled buffer is the concatenation of the blocks. |
| Encoding.FlattenInjective | web_client_2/src/crypto/x3dh.ts:159-166 | Lists of blocks of one length, three or four alike, have one concatenation only if they are equal. |
| Encoding.FingerprintAgreement | web_client_2/src/crypto/x3dh.ts:120-129 | Two pairs of keys give one hashed text iff they are the same pair, in either order. |
| Encoding.FingerprintIsSorted | web_client_2/src/crypto/x3dh.ts:120-124 | The hashed text is the two keys with the one that sorts first in front. |

## Left out

- Concrete X25519, Ed25519, HKDF, SHA-256 and ChaCha20-Poly1305 arithmetic; terms stand for their outputs.
- Confidentiality and attackers of any kind; `verifyBundle` is a flag of the bundle.
- Passwords, JWT decoding, registration and search; a token is its mailbox or absent.
- Typing indicators at the client, UI, timers, reconnect delays and conversation lists.
- Reloads with unacknowledged frames beyond `Persistence`, failed or reordered IndexedDB writes, and several tabs.
- Claims about logs across servers: `RouterViews.SentAcrossServers` follows one frame, but frames published over Redis can arrive in another order, so the log claims are for one server.
- Serialization errors of server messages and of the publication payload, which end in a log line, and the `delivered_at` column.
- Error answers of the auth service, its bundle request for a single device, and its order of devices; the list of devices is a parameter.
- Writing new prekeys to the keys table, and `deserializeDeviceKeys`, which restores every field as `Storage` restores the plain ones.
- Texts that `atob` accepts with white space or without padding.
- The wrap-around of 64-bit numbers in the log and of JavaScript integers.
- Prekeys.StepKeeps: replenishment runs are steps on values and not methods of a class, because each awaits two answers and others act in between.
- Recovery.ResetRecovery: it holds until the resetter resets the same contact again or processes an init without its prekey, and the contact must reach the resetter's init in its mailbox; a lost init is not covered.
- Replenishment.SequentialRuns: a run whose answer was lost after a key was stored counts as not over, so no other is started.
- ClientHandlers.LoopServesEach: it is for bundles of different devices and fresh message ids, which the service's primary key and `randomUUID` give.
- SavedSessions.ReloadsChangeNothing: a record whose skipped keys came back as plain objects reads as no state, and what the ratchet then does is not modelled.
- The cloud infrastructure code, which has no algorithmic content.
