# A verified model of the LXMF and RRC protocols

This project models, in Dafny 4.11, the protocol cores of a Go implementation of LXMF (a store-and-forward
message format for Reticulum networks) and RRC (a relay chat with a policy daemon, gorrcd), and proves what those
cores are for:

- **Propagation nodes.** A node keeps a size-limited message store with handled and unhandled peer lists, offers
  message ids to peers, reads the answer, transfers, and marks. Two nodes are a state machine; over all its runs
  the receiver never refuses what a well-informed sender sends, handled marks are sound, and transfers fit. The
  critical sections of an ingest are separate steps, so concurrent copies and cache expiry are part of the runs.
- **Stamps.** Scores, thresholds, the hand-written SHA-256 tail over an opaque compression function, the GPU
  kernel's second implementation, and the chunked parallel workers, each proved equal to a simple form.
- **The RRC hub with the gorrcd policy.** Sessions, two inverse membership indexes, the nickname index, rate
  limiting, room registry, operator commands, bans and reloads, over every event run.
- **Message identity and tickets.** The message id ignores the stamp; a ticket is honoured until it expires.
- **Text forms.** The room registry file with its quoting, and the paper URI, as printer and parser pairs.

Cryptography enters as function-valued parameters: SHA-256 of a whole message, the workblock derivation, the
signature, and the SHA-256 compression function. Network calls, clocks, random draws and policy answers enter as
parameters or as nondeterministic steps. Floating-point times, tokens and weights are reals.

`dafny verify dfyconfig.toml` checks the whole project.

## How it is laid out

| files | content |
|---|---|
| Bytes, Texts, Quoting | bytes and big-endian numbers; strings, lines, hexadecimal; quoted strings |
| StampScore, Sha256Tail, Chunks, StampKernel | stamps, midstate hashing, parallel workers, the GPU kernel |
| MsgPack, MessageId, Tickets | wire encoding, message ids, tickets |
| MessageStore, PropagationNode, PeerSync, PeerHandlers, Ingest | the propagation node |
| SyncProtocol, SyncMarks, SyncStamps, SyncSizes, SyncCache, SyncProgress, SyncWitness | two nodes in exchange: the state machine; marks; keys, stamps and throttling; sizes; the cache of processed ids; what an exchange achieves; runs that show the limits |
| RateLimit, Hub, Rooms, ConfigFile | the hub, the room registry, the configuration file |
| Policy, PolicyRuns, PolicyRules, PolicyRanks, PolicyWitness | gorrcd: events and commands; bans and klines; how long bans and invitations last; rank; runs that show the limits |
| RegistryText, RegistryLines, RegistryFile, RegistryWhole, PaperUri | text forms; RegistryWhole: every registry can be listed, and the round trip with whole seconds |

Code that updates objects step by step is a class or a looping method proved equal to a specification function;
the results are lemmas about those functions and about runs of them.

## Results where the code does less than one might expect

- A message that came from a peer can be offered back to it. `PropagationNode.SettledStays` lists exactly the steps
  that end a settled pair, `PropagationNode.BecomesSettled` says exactly when a peer's own copy settles it, and
  `PropagationNode.UnsettledIsOffered` that from every other state some run offers it. Three such runs are given:
  two peers deliver one message at the same time (`PropagationNode.ConcurrentCopyIsOffered`), the id of an evicted
  message expires (`PropagationNode.ExpiredIsOffered`), and a peer is removed before a restart and added again after
  it (`PropagationNode.ForgottenIsOfferedBack`, `PropagationNode.RestartKeepsSettledIff`).
- A sender can be throttled although its record of the receiver is right: another copy of a message, with a stamp the
  receiver does not accept, is stored while the receiver may still ask for the message. `SyncStamps.ThrottledExactly`
  says that a step opens the way to throttling if and only if it stores such a copy, and
  `SyncWitness.WorseCopyIsThrottled` gives the run from any start and any offer. It takes an id that expires while
  its message is stored, being stored or under offer (`SyncCache.InUseIsKept`), which the code makes rare by keeping ids
  for 180 days and messages for 30, and a sender that asks for weaker stamps than the receiver
  (`SyncCache.StrictIsSteady`). The peering key is never refused: `SyncStamps.KeyNeverRefused`.
- A message can be marked as handled for a peer that never got it: it is gone when the files of a transfer are read and
  stored again before the marks are set. `SyncMarks.WrongMarkExactly` says that only such a step opens the way to a
  wrong mark, `SyncWitness.UnsentMarkIsReachable` gives the run, and `SyncCache.InUseIsKept` says that it, too, needs an
  id to expire in use.
- A message callback registers the peer again on every envelope and hands the envelope on even if that closed the
  session. A JOIN then leaves a key in a room that no session lists. `Hub.StepKeeps` says that the hub invariant
  survives a step exactly when this does not happen, `Hub.DroppedJoinIsReachable` gives a run in which it does, and
  `PolicyRuns.OnlyLostWelcomeDrops` shows that under gorrcd only a WELCOME that cannot be sent leads to it.
- A ban does not remove such a lingering key: `PolicyRuns.NextNoBanned` says that banned identities stay out of a
  room exactly until one is banned while it lingers, and `PolicyWitness.BannedMemberIsReachable` gives the run. One
  that is out stays out whatever happens: `PolicyRules.BanKeepsOut`.
- `/kline` edits the configuration file by a case-sensitive search and may append its line to a section where it is
  not read. `ConfigFile.PersistThenLoad` says when an edit takes effect, `Policy.ReloadKlined` and
  `Policy.KlinesSurviveReload` what a reload does, and `PolicyWitness.KlinesHoldIff` that klined identities stay
  out in every run from a start with an operator exactly when the configuration file is safe, the failing run being
  `PolicyWitness.UnsafeConfigBreaks`.
- A JOIN founds a room without a founder even if it is refused: `PolicyRanks.NextOps`.
- The threshold test of a stamp accepts one hash value more than the score test:
  `StampScore.ThresholdIsScoreOrBoundary`.
- A packed message whose fields nest too deeply, or use keys that do not normalise, is rejected by unpacking:
  `MessageId.UnpackOfPack` and `MessageId.SplitRejected`.
- A room registered under the empty name would come back empty: `RegistryFile.RegistryRoundTrip`.

## Model

| member | source | states |
|---|---|---|
| StampScore.HashScore | pkg/lxmf/stamper.go:35-55 | the loop counts the leading zero bits of the hash |
| StampScore.ScoreIsThreshold | pkg/lxmf/stamper.go:35-55 | a digest has at least c leading zeros exactly when its number is below 2^(256-c) |
| StampScore.TargetIsPowerOfTwo | pkg/lxmf/stamper.go:128-140 | the byte array that stampTarget writes is the number 2^(256-cost) |
| StampScore.LexIsNumeric | pkg/lxmf/stamper.go:59-72 | comparing digests byte by byte is comparing their numbers |
| StampScore.MeetsCostIsScore | pkg/lxmf/stamper.go:75-83 | at every cost MeetsCost holds exactly for a full stamp whose score reaches the cost |
| StampScore.ThresholdIsScoreOrBoundary | pkg/lxmf/stamper.go:59-72 | StampValid accepts what the score accepts and, below cost 256, in addition only the hash 2^(256-cost) |
| StampScore.ScorePassesThreshold | pkg/lxmf/stamper.go:59-83 | what the sender filters by score, the receiver's threshold accepts |
| StampScore.KernelBelowTarget | pkg/lxmf/gpu_kernel.go:257-261 | the kernel's comparison loop decides whether the hash is at most the target |
| StampScore.KernelVerdict | pkg/lxmf/gpu_kernel.go:253-272 | at every cost, 0 included, the kernel's two loops accept a hash exactly when its score reaches the cost |
| StampScore.StampMonotone | pkg/lxmf/stamper.go:59-72 | a stamp good enough for a cost is good enough for every lower cost |
| StampScore.PnStampAccepts | pkg/lxmf/stamper.go:94-111 | a message with a stamp is accepted exactly when it is longer than the overhead and the hash scores the cost or is the one boundary value; the entry carries its hash, parts and score |
| Sha256Tail.FinishIsStandard | pkg/lxmf/sha256_fast.go:45-74 | finishing a split message with the padding of FIPS 180-4 section 5.1.1 equals hashing it whole |
| Sha256Tail.MidstateOfPrefix | pkg/lxmf/midstate.go:21-57 | state and remainder of a prefix: whole blocks are absorbed, less than a block is left |
| Sha256Tail.AbsorbBlocks | pkg/lxmf/sha256_fast.go:51-56 | the block loop folds the compression over all whole blocks of the buffer |
| Sha256Tail.FinishBlock | pkg/lxmf/sha256_fast.go:57-68 | the in-place block work yields the standard ending in both padding cases |
| Sha256Tail.HashMidstateStamp | pkg/lxmf/sha256_fast.go:45-74 | finishing from a prefix midstate gives SHA-256 of prefix and stamp, for every prefix and every stamp of at most 64 bytes |
| Sha256Tail.KernelFinalize | pkg/lxmf/gpu_kernel.go:52-75 | the kernel's finalisation computes the same digest as the standard ending |
| StampKernel.HashStamp | pkg/lxmf/gpu_kernel.go:237-251 | absorbing the rounds and finishing by the kernel's own code gives SHA-256 of workblock and stamp |
| StampKernel.BatchValidate | pkg/lxmf/gpu_kernel.go:220-272 | with at most 64 bytes of material the kernel accepts exactly the candidates that the portable check accepts |
| Chunks.StartWorkers | pkg/lxmf/batch_validate.go:66-76 | the ceiling-divided ranges partition the items, for every item and worker count |
| Chunks.EachIndexOwnedOnce | pkg/lxmf/batch_validate.go:66-76 | every index lies in exactly one range |
| Chunks.RunWorkers | pkg/lxmf/workblock.go:55-94 | under every interleaving of the workers the result is the sequential map, or failure exactly when an item fails |
| Chunks.ValidateStampBatch | pkg/lxmf/batch_validate.go:57-86 | each flag says whether its candidate meets the cost |
| Chunks.ValidatePnStamps | pkg/lxmf/batch_validate.go:88-131 | the valid entries come out in input order, none lost or added |
| Chunks.StampWorkblock | pkg/lxmf/workblock.go:55-94 | one buffer of 256 bytes a round holds the output of round i at byte 256 i whatever the schedule; an error in any round is an error of the whole |
| MsgPack.HeadRoundTrip | pkg/lxmf/message.go:660-678 | every MessagePack head decodes to itself in front of any bytes |
| MsgPack.RoundTrip | pkg/lxmf/message.go:763-796 | a value within nesting and map-size limits decodes to itself, one beyond them is rejected |
| MsgPack.DecodeExtends | pkg/lxmf/message.go:687-749 | decoding a prefix does not depend on what follows it |
| MessageId.DecodeLoop | pkg/lxmf/message.go:700-745 | the element loop decodes exactly the counted values |
| MessageId.DecodePayloadAndSplit | pkg/lxmf/message.go:687-749 | the method agrees with the split of payload and hashed bytes |
| MessageId.RestampKeepsHashed | pkg/lxmf/message.go:687-749 | with or without a stamp the bytes to be hashed are the same |
| MessageId.SplitAccepted | pkg/lxmf/message.go:687-749 | a stamped payload within limits splits into its list and the unstamped encoding |
| MessageId.SplitRejected | pkg/lxmf/message.go:763-796 | a payload beyond the limits is rejected |
| MessageId.UnpackOfPack | pkg/lxmf/message.go:513-559 | unpacking a packed message succeeds exactly when its fields stay within limits and normalise, and then gives back every part, the normalised fields, and recomputes the signed bytes and the hash of packing |
| MessageId.FieldsComeBack | pkg/lxmf/message.go:820-887 | fields with byte keys throughout, as a sender's maps have, come back unchanged |
| MessageId.NormalIsByteKeyed | pkg/lxmf/message.go:858-970 | whatever normalisation accepts has byte keys throughout afterwards, in nested maps as well |
| MessageId.IdIgnoresStamp | pkg/lxmf/message.go:385-440 | hash, signature and message id do not depend on the stamp |
| MessageStore.DropFirstRemoves | pkg/lxmf/router_store.go:383-398 | removing a peer from a duplicate-free list removes it and nothing else |
| MessageStore.AddUnhandledUpdate | pkg/lxmf/router_store.go:363-381 | queueing keeps the lists disjoint and duplicate-free and adds only a pair that is not handled |
| MessageStore.RemoveUnhandledUpdate | pkg/lxmf/router_store.go:383-398 | dropping a queued pair touches nothing else |
| MessageStore.MarkHandledUpdate | pkg/lxmf/router_store.go:400-419 | marking moves the pair to handled and keeps the lists disjoint and duplicate-free |
| MessageStore.SortByWeight | pkg/lxmf/router_store.go:325-340 | the eviction order lists every entry once, heaviest first |
| MessageStore.Evict | pkg/lxmf/router_store.go:341-361 | the eviction loop is a minimal eviction |
| MessageStore.EvictedPrefix | pkg/lxmf/router_store.go:313-361 | a prefix of the order that just fits the limit is a minimal eviction: heaviest gone, last victim needed |
| MessageStore.MessageStore.TotalBytes | pkg/lxmf/router_store.go:249-259 | the sum of all entry sizes |
| MessageStore.MessageStore.EnforceLimit | pkg/lxmf/router_store.go:313-361 | with a positive limit the store fits, no kept entry outweighs an evicted one, all but the last victim would not do, and the bytes cleaned are the bytes gone |
| MessageStore.MessageStore.Add | pkg/lxmf/router_store.go:106-143 | too short data and known ids change nothing; otherwise the entry is added and the limit enforced minimally |
| MessageStore.MessageStore.Remove | pkg/lxmf/router_store.go:158-171 | exactly that entry goes |
| MessageStore.MessageStore.AddUnhandledPeer | pkg/lxmf/router_store.go:363-381 | equals the list update above |
| MessageStore.MessageStore.RemoveUnhandledPeer | pkg/lxmf/router_store.go:383-398 | equals the list update above |
| MessageStore.MessageStore.MarkHandledPeer | pkg/lxmf/router_store.go:400-419 | equals the list update above |
| PropagationNode.Router.LxmfPropagation | pkg/lxmf/router_propagation.go:443-508 | one uninterrupted call: accepted exactly when new and either delivered locally or stored with a stamp; what is stored is queued with its origin |
| PropagationNode.IngestIsSteps | pkg/lxmf/router_propagation.go:443-508 | the separate critical sections, run in a row, are that call followed by the origin's mark |
| PropagationNode.SavePeer | pkg/lxmf/router_peer.go:656-673 | the file lists exactly the ids handled and queued for the peer |
| PropagationNode.LoadPeerRestores | pkg/lxmf/router_peer.go:600-607 | loading one peer file restores exactly that peer in every list |
| PropagationNode.RestartRestores | pkg/lxmf/router_persist.go:87-114 | saving all peers and loading them into a rebuilt index restores the lists of those peers |
| PropagationNode.StepKeepsInv | pkg/lxmf/router_store.go:363-419 | every step, each critical section of an ingest and cache expiry included, keeps all lists disjoint and duplicate-free |
| PropagationNode.RunKeepsInv | pkg/lxmf/router_store.go:363-419 | so does every run |
| PropagationNode.SettledStays | pkg/lxmf/router_store.go:400-419 | a settled pair stays settled through a step if and only if the step is not an expiry or eviction that leaves the message unknown, a new claim, or a restart without the peer |
| PropagationNode.BecomesSettled | pkg/lxmf/router_propagation.go:209-214 | marking a copy that came from a peer settles the pair if and only if no other ingest stands between claim and store and the message is known |
| PropagationNode.NeverOfferedBack | pkg/lxmf/router_propagation.go:569-590 | over every run without a step that ends the pair, a settled message is never queued for its peer, through flush, peering, concurrent ingest, and save and load |
| PropagationNode.UnsettledIsOffered | pkg/lxmf/router_peer.go:751-769 | from every state in which the pair is not settled some run queues the message for the peer |
| PropagationNode.ConcurrentCopyIsOffered | pkg/lxmf/router_propagation.go:452-508 | the run in which a copy arriving between another's claim and store is not marked, and the message is offered back |
| PropagationNode.ExpiredIsOffered | pkg/lxmf/router_persist.go:185-190 | the run in which an evicted message's id expires and the message is offered back |
| PropagationNode.RestartKeepsSettledIff | pkg/lxmf/router_persist.go:154-170 | a stop and start keeps a handled pair exactly when the peer was still known at the stop |
| PropagationNode.ForgottenIsOfferedBack | pkg/lxmf/router_peer.go:795-811 | after removal, restart and new peering the message is queued for its origin |
| PropagationNode.Router.Distribute | pkg/lxmf/router_propagation.go:569-590 | one item is queued for every peer but its origin, where not handled |
| PropagationNode.Router.FlushPeerDistribution | pkg/lxmf/router_propagation.go:569-590 | the whole queue is distributed exactly, and emptied |
| PropagationNode.Router.QueuePeerStoreSync | pkg/lxmf/router_peer.go:751-769 | everything a peer has not handled is queued for it, and nothing else changes |
| PeerSync.DropLowKeeps | pkg/lxmf/router_peer.go:299-316 | dropping low-value messages from the queue of a peer marks nothing |
| PeerSync.DropLowExact | pkg/lxmf/router_peer.go:299-316 | exactly the queued messages below the peer's stamp requirement leave its queue |
| PeerSync.SelectMarks | pkg/lxmf/router_peer.go:318-336 | selection marks as handled only messages over the per-message limit |
| PeerSync.SelectOffers | pkg/lxmf/router_peer.go:318-336 | the offer lists candidates of the store once each, with their sizes, and its estimate stays within the sync limit |
| PeerSync.SelectComplete | pkg/lxmf/router_peer.go:318-336 | the offer is maximal: a candidate left out is marked as too big, or would overflow the limit on top of the whole offer |
| PeerSync.EstimateBoundsWire | pkg/lxmf/router_peer.go:434-456 | the encoded batch is at most 24 plus the sum of size plus 16 |
| PeerSync.WithinRecordIsAccepted | pkg/lxmf/router_propagation.go:120-128 | a size below the recorded limit is accepted by the node that announced it |
| PeerSync.SelectSmall | pkg/lxmf/router_peer.go:318-336 | nothing over the per-message limit is offered |
| SyncProtocol.ExchangeIsSteps | pkg/lxmf/router_peer.go:364-493 | the handler in one go is the answer taken, the marks of what was sent and the link torn down, in a row |
| SyncMarks.StepMarksKept | pkg/lxmf/router_peer.go:285-493 | every step of either node but one that stores a message between its reading and its mark keeps all marks justified |
| SyncMarks.HandledMarksSound | pkg/lxmf/router_peer.go:364-476 | in every run without such a step, for every record and every announcement, a handled mark means: held by the peer when answering, transferred, received from it, or over its message limit when marked |
| SyncMarks.BigIsTooBig | pkg/lxmf/router_peer.go:318-336 | what an offer adds to the last reason was over the limit of the record then in use |
| SyncMarks.WrongMarkExactly | pkg/lxmf/router_peer.go:470-474 | after every run without such a step, a step opens the way to an unjustified mark if and only if it is one |
| SyncStamps.KeyAccepted | pkg/lxmf/router_peer.go:121-154 | a peering key the sender considers ready passes the receiver's check |
| SyncStamps.LinkKept | pkg/lxmf/router_propagation.go:275-332 | every step of either node keeps the key accepted and the link of every transfer validated |
| SyncStamps.KeyNeverRefused | pkg/lxmf/router_propagation.go:275-332 | in every run with truthful announcements the key passes and no transfer is rejected for want of one |
| SyncStamps.StampsKept | pkg/lxmf/router_peer.go:285-493 | every step that stores no unacceptable copy of a message under offer keeps all that is sent, or may be, acceptable |
| SyncStamps.NeverThrottled | pkg/lxmf/router_propagation.go:199-237 | in every run without such a step every transferred message passes the stamp check and the sender is not throttled |
| SyncStamps.ThrottledExactly | pkg/lxmf/router_propagation.go:216-237 | after every run without such a step, a step opens the way to throttling if and only if it is one |
| SyncSizes.TransfersFit | pkg/lxmf/router_peer.go:434-456 | in every run in which no copy of another size is stored under offer, each transfer is below the recorded sync limit and of a size the receiver accepts |
| SyncSizes.OtherIsCollision | pkg/lxmf/router_propagation.go:447-448 | such a copy needs two messages of different length with one hash |
| SyncCache.InUseIsKept | pkg/lxmf/router_propagation.go:452-463 | as long as no id expires while its message is stored, being stored, under offer or yet to be marked, none of these steps happens |
| SyncCache.StrictIsSteady | pkg/lxmf/router_propagation.go:199-214 | a sender that asks for stamps at least as good as the receiver does never stores an unacceptable copy, whatever expires |
| SyncWitness.WorseCopyIsThrottled | pkg/lxmf/router_persist.go:185-190 | from every start and every offer, the run of eviction, expiry, a new copy, and the exchange that ends in throttling |
| SyncWitness.UnsentMarkIsReachable | pkg/lxmf/router_peer.go:434-474 | from every start and every offer of two messages, the run that marks one of them without having sent it |
| SyncProgress.ConcludedIsKnown | pkg/lxmf/router_propagation.go:199-237 | after a transfer the receiver knows every message in it |
| SyncProgress.ConcludedIsSettled | pkg/lxmf/router_propagation.go:199-237 | after a transfer every message in it is settled for the sender at the receiver |
| SyncProgress.ExchangeSettles | pkg/lxmf/router_peer.go:364-493 | after an uninterrupted exchange every offered message still stored is handled for the peer, and what was wanted is in the transfer |
| PeerHandlers.Peer.CollectQueued | pkg/lxmf/router_peer.go:299-316 | collects exactly the offerable ids and drops the low-value ones |
| PeerHandlers.Peer.SelectFitting | pkg/lxmf/router_peer.go:318-336 | the selection loop equals the selection function |
| PeerHandlers.Peer.SendOffer | pkg/lxmf/router_peer.go:285-362 | the handler performs the offer step of the protocol |
| PeerHandlers.Peer.ReadPayloads | pkg/lxmf/router_peer.go:434-446 | reads the payloads of the wanted ids that are still stored, in order |
| PeerHandlers.Peer.TransferWanted | pkg/lxmf/router_peer.go:434-493 | reading, sending and only then marking the wanted messages is the transfer of the protocol with its marks |
| PeerHandlers.Peer.HandleErrorCode | pkg/lxmf/router_peer.go:405-432 | no identity retries on the link, throttling waits, no access ends the peering, anything else hangs up |
| PeerHandlers.Peer.HandleOfferResponse | pkg/lxmf/router_peer.go:364-493 | the handler in one go, case by case, is the uninterrupted exchange of the protocol |
| PeerHandlers.WantedIds | pkg/lxmf/router_propagation.go:334-356 | the reply lists exactly the offered ids not in the store, in order |
| Ingest.StepBalanced | pkg/lxmf/router_propagation.go:443-508 | every atomic action keeps the account of claims, deliveries, stores and queueings of an id |
| Ingest.AcceptedOnce | pkg/lxmf/messenger.go:580-639 | under every interleaving, unchecked notes of delivered ids included, an id is stored or delivered at most once more than its cache entry expired, and queued at most as often as stored |
| Ingest.RememberedIsIgnored | pkg/lxmf/messenger.go:207-221 | from when an id is remembered, by the gate or by a note, until it expires, it does not pass the gate again |
| Ingest.KnownIsIgnored | pkg/lxmf/messenger.go:623-636 | an id remembered at the start that does not expire is neither stored, delivered nor queued |
| Tickets.TicketBook.GenerateTicket | pkg/lxmf/tickets.go:54-88 | nothing soon after a delivery, else a ticket still good for long, else the new one with a full lifetime |
| Tickets.TicketBook.InboundList | pkg/lxmf/tickets.go:135-152 | lists exactly the unexpired tickets issued |
| Tickets.TicketBook.CleanBook | pkg/lxmf/tickets.go:166-183 | outbound tickets go at expiry, inbound ones after the grace period, empty maps with them |
| Tickets.ValidateStamp | pkg/lxmf/message.go:319-357 | a matching ticket gives the ticket score at any cost, otherwise proof of work decides |
| Tickets.GenerateKeeps | pkg/lxmf/tickets.go:54-88 | issuing never shortens a ticket already issued, even when a drawn ticket repeats |
| Tickets.CleanIssued | pkg/lxmf/tickets.go:166-183 | cleaning drops an issued ticket exactly when its grace period is over |
| Tickets.StepKeeps | pkg/lxmf/tickets.go:54-183 | every step of either party keeps the ticket invariant |
| Tickets.TicketHonoured | pkg/lxmf/messenger.go:309-335 | in every run a message stamped with a remembered ticket validates at the issuer with the ticket score, at any cost, any time before the ticket expires |
| RateLimit.Session.TakeToken | pkg/rrc/hub.go:644-667 | one call refills, caps and takes as the bucket function says |
| RateLimit.TokensConserved | pkg/rrc/hub.go:644-667 | tokens spent plus tokens left never exceed tokens at the start plus tokens earned |
| RateLimit.WindowBound | pkg/rrc/hub.go:345-353 | between any two times at most limit plus limit/60 per second are accepted |
| RateLimit.RefusedOnlyWhenSpent | pkg/rrc/hub.go:644-667 | a refusal happens only when the earnings since the bucket was last full are spent |
| Hub.LeaveAt | pkg/rrc/hub.go:187-198 | leaving rooms removes exactly that key from exactly those rooms and keeps no empty room |
| Hub.ClaimKeeps | pkg/rrc/hub.go:178-200 | registration moves the key to the new session and keeps the indexes inverse |
| Hub.DropKeeps | pkg/rrc/hub.go:271-303 | dropping the current session removes its key everywhere |
| Hub.SetNickKeeps | pkg/rrc/hub.go:326-343 | a nickname change keeps every current nickname indexed |
| Hub.JoinKeeps | pkg/rrc/hub.go:458-489 | JOIN keeps the invariant, the room limit included |
| Hub.PartKeeps | pkg/rrc/hub.go:527-544 | PART and removal keep it |
| Hub.ReHelloKeeps | pkg/rrc/hub_ops.go:10-23 | a second HELLO keeps it |
| Hub.StepKeeps | pkg/rrc/hub.go:223-241 | a step keeps the invariant if and only if it is not a JOIN handled for a session just closed |
| Hub.RunKeeps | pkg/rrc/hub.go:170-423 | over every other run: a key is in a room exactly when its current session lists it, no room is empty, members are welcomed, room limits hold, nicknames are indexed |
| Hub.StepBase | pkg/rrc/hub.go:170-423 | every event, the exception included, keeps connected keys and their sessions matched |
| Hub.DroppedJoinIsReachable | pkg/rrc/hub.go:202-241 | a run in which the exception leaves a key in a room without a session |
| Hub.HandleAdds | pkg/rrc/hub.go:458-489 | handling an envelope adds at most its own key to the room of an allowed JOIN |
| Hub.RegisterAdds | pkg/rrc/hub.go:178-221 | registration adds no member, and a peer only when the policy accepts it |
| Hub.JoinExact | pkg/rrc/hub.go:458-489 | JOIN adds this one membership, if allowed, and changes no other |
| Hub.PartExact | pkg/rrc/hub.go:527-544 | PART and removal end these memberships of this key and no others |
| Hub.CloseExact | pkg/rrc/hub.go:271-303 | a closed current session is out of all rooms and of the peers, and nobody else is |
| Hub.ClaimExact | pkg/rrc/hub.go:178-200 | a reconnecting key starts without rooms; other memberships stay |
| Hub.ReHelloExact | pkg/rrc/hub_ops.go:10-23 | a second HELLO leaves all rooms and stays connected and welcomed |
| Hub.NickFound | pkg/rrc/hub.go:326-343 | a nickname just set is found by lookup |
| Hub.RelayReachesMembers | pkg/rrc/hub.go:587-642 | a relayed message reaches exactly the open sessions listing the room and names the session's own identity |
| Hub.RunRelays | pkg/rrc/hub.go:587-642 | the same at every point of every run without the exception |
| Hub.LookupComplete | pkg/rrc/hub_ops.go:272-284 | looking up a current nickname finds its owner |
| Hub.HubServer.LeaveRooms | pkg/rrc/hub.go:187-198 | the loop over rooms equals leaving them all at once |
| Hub.HubServer.UnindexNick | pkg/rrc/hub_ops.go:40-53 | equals the index function |
| Hub.HubServer.ReindexNick | pkg/rrc/hub_ops.go:25-38 | equals the index function |
| Hub.HubServer.DropPeerIf | pkg/rrc/hub.go:271-303 | new state of peers, rooms, nicknames and session; nothing for a session that is not current |
| Hub.HubServer.ClaimKey | pkg/rrc/hub.go:184-203 | new state after replacing an older session |
| Hub.HubServer.OnJoin | pkg/rrc/hub.go:458-489 | new state in every branch, refusals included |
| Hub.HubServer.OnPart | pkg/rrc/hub.go:527-544 | new state in every branch |
| Hub.HubServer.OnHello | pkg/rrc/hub.go:425-456 | the session becomes active, or is closed when WELCOME cannot be sent |
| Hub.HubServer.ReHello | pkg/rrc/hub_ops.go:10-23 | the loop of PARTs equals leaving all rooms, then a HELLO |
| Hub.HubServer.RemoveFromRoom | pkg/rrc/hub_ops.go:133-155 | removes the membership and says whether there was one |
| Hub.HubServer.ApplyInboundNick | pkg/rrc/hub.go:326-343 | refuses exactly the nicknames that are too long |
| Hub.HubServer.HandlePeer | pkg/rrc/hub.go:345-423 | the dispatcher equals the handling function |
| Hub.HubServer.RegisterPeer | pkg/rrc/hub.go:178-221 | registration with its policy check and the waiting HELLO |
| Hub.HubServer.OnEnvelope | pkg/rrc/hub.go:223-241 | the message callback equals the receive step |
| Hub.HubServer.OnRoomContent | pkg/rrc/hub.go:587-642 | refuses a missing room, a body over the limit and a non-member without a policy; otherwise the loop over members equals the relay function |
| Rooms.RoomRegistry.Write | internal/gorrcd/rooms.go:386-399 | exactly the registered rooms are written |
| Rooms.RoomRegistry.AllowJoin | internal/gorrcd/rooms.go:178-210 | settles the founder and answers by bans, invitation, key and rank |
| Rooms.RoomRegistry.AllowContent | internal/gorrcd/rooms.go:219-245 | answers by existence, bans, membership and moderation |
| Rooms.RoomRegistry.PruneUnused | internal/gorrcd/rooms.go:357-384 | removes exactly the registered, unoccupied rooms unused for long, and rewrites the file if any |
| ConfigFile.PersistBanned | internal/gorrcd/config.go:322-352 | the edit loop replaces every recognised line or appends one |
| ConfigFile.PersistThenLoad | internal/gorrcd/config.go:322-352 | the next load sees the edited list exactly when the edit lands; otherwise no edit changes what is loaded |
| ConfigFile.LoadWithoutLanding | internal/gorrcd/config.go:112-136 | where edits do not land, the ban list loaded is the unrecognised one |
| Policy.ResolveToken | internal/gorrcd/commands.go:582-613 | the single match, nobody when there are several, the full identity when there is none |
| Policy.ExecuteRegistry | internal/gorrcd/commands.go:12-52 | every command, by anyone, keeps founders operators and the file equal to the registered rooms in bans and invitations |
| Policy.NextRegistry | internal/gorrcd/service.go:424-493 | so does every event, pruning and reloading included |
| Policy.ExecuteHub | internal/gorrcd/commands.go:159-189 | apart from klines no command touches trust, and only kicks and bans touch the hub, by one removal |
| Policy.KlineBars | internal/gorrcd/commands.go:191-255 | a kline takes effect on the connection it names and is written |
| Policy.ExecuteBars | internal/gorrcd/commands.go:12-52 | no command leaves a klined identity connected |
| Policy.MessagePeers | internal/gorrcd/service.go:428-437 | whoever is connected after a message is not klined |
| Policy.ReloadKlined | internal/gorrcd/service.go:381-422 | a reload keeps klined identities out if and only if it fails before the list or no connected one is on the list it loads |
| Policy.NextBars | internal/gorrcd/service.go:424-493 | no event leaves a klined identity connected, lost WELCOMEs included |
| Policy.BansSurviveReload | internal/gorrcd/service.go:381-422 | a reload keeps a room's bans exactly when the room is registered or has none |
| Policy.KlinesSurviveReload | internal/gorrcd/service.go:381-422 | a reload keeps the klines exactly when edits land in the configuration file or the klines are those it had |
| PolicyRuns.ExecuteBans | internal/gorrcd/commands.go:461-509 | a ban set changes exactly by a ban or its lifting that an operator of the room gives |
| PolicyRuns.ExecuteMembers | internal/gorrcd/commands.go:12-52 | no command makes anyone a member |
| PolicyRuns.MessageMembers | internal/gorrcd/service.go:446-452 | a message makes nobody a member who is banned from that room |
| PolicyRuns.NextNoBanned | internal/gorrcd/commands.go:488-502 | an event keeps banned identities out of their rooms if and only if it does not ban one that lingers without a session |
| PolicyRuns.HistoryOk | internal/gorrcd/service.go:424-493 | in every run sessions and peers match and the file matches the registered rooms |
| PolicyRuns.KlinesHold | internal/gorrcd/service.go:428-437 | in every run from a safe configuration file no klined identity is connected |
| PolicyRuns.BansHold | internal/gorrcd/rooms.go:178-210 | in every run in which nobody bans a lingering identity, no identity in a room's ban set is in that room |
| PolicyRuns.NoDropNoLinger | pkg/rrc/hub.go:223-241 | in a run without a JOIN handled for a session just closed nobody lingers |
| PolicyRuns.OnlyLostWelcomeDrops | internal/gorrcd/service.go:428-437 | the policy's refusals never cause that; only a WELCOME that cannot be sent does |
| PolicyWitness.UnsafeConfigBreaks | internal/gorrcd/commands.go:244-254 | from every start with an unsafe configuration file and an operator: the run that lifts a kline, lets the identity connect, reloads, and leaves it klined and connected |
| PolicyWitness.KlinesHoldIff | internal/gorrcd/config.go:322-352 | from a start with an operator not klined, klined identities stay out in every run if and only if the configuration file is safe |
| PolicyWitness.BannedMemberIsReachable | internal/gorrcd/commands.go:461-509 | from every start with an operator: the run of an early HELLO, a JOIN with a lost WELCOME and a ban by full hash that leaves a banned member |
| PolicyRules.NextBans | internal/gorrcd/commands.go:461-509 | who is banned changes exactly by bans, their lifting, pruning of the room, and a reload that does not find it |
| PolicyRules.BannedExactly | internal/gorrcd/rooms_mut.go:120-126 | in every run an identity is banned exactly when some event banned it and none since has lifted that |
| PolicyRules.BanKeepsOut | internal/gorrcd/service.go:439-452 | in every run a banned identity that is out of the room stays out until the ban is lifted |
| PolicyRules.BanRefuses | internal/gorrcd/rooms.go:178-245 | in every run its JOINs and messages are refused meanwhile, whatever its rank, invitation or key |
| PolicyRules.NextInvited | internal/gorrcd/commands.go:511-560 | an invitation changes exactly by renewal, use, withdrawal, pruning, and a reload that finds it expired or not at all |
| PolicyRules.InviteLasts | internal/gorrcd/service.go:454-463 | in every run it lasts until one of these |
| PolicyRules.InviteAdmits | internal/gorrcd/commands.go:511-560 | in every run until then and before it runs out, the invited identity may join with any key exactly when it is not banned |
| PolicyRules.InvitesAreGiven | internal/gorrcd/commands.go:511-560 | in every run each invitation was in the file at the start or was given by an operator |
| PolicyRules.InviteOnlyHolds | internal/gorrcd/rooms.go:178-210 | in every run whoever enters an invite-only room has rank there or was given an invitation that has not run out |
| PolicyRanks.ExecuteRanks | internal/gorrcd/commands.go:347-384 | rank and voice change exactly by op, deop, voice and devoice that an operator gives, and a founder is never deposed |
| PolicyRanks.NextOps | internal/gorrcd/rooms.go:80-123 | who has rank changes exactly by those commands, by founding, and by pruning; a reload takes it from the file |
| PolicyRanks.RankIsEarned | internal/gorrcd/commands.go:69-83 | in every run whoever may command a room is trusted, had rank in the file, founded the room, or was made operator by someone who could command it then |
| Policy.Service.CmdBan | internal/gorrcd/commands.go:461-509 | the command equals its effect on registry, file and hub |
| Policy.Service.CmdKick | internal/gorrcd/commands.go:159-189 | the command equals its effect on the hub |
| Policy.Service.CmdKline | internal/gorrcd/commands.go:191-255 | the command equals its effect on trust, configuration and hub |
| Quoting.QuoteRoundTrip | internal/gorrcd/config.go:219-232 | every text comes back from its quoted form |
| Quoting.QuoteOneLine | internal/gorrcd/rooms.go:403-420 | a quoted text stays on one line |
| RegistryText.IdBack | internal/gorrcd/hash.go:41-70 | an identity comes back from its hexadecimal text |
| RegistryText.IdsRoundTrip | internal/gorrcd/rooms.go:446-456 | a set of identities comes back from its list in any order |
| RegistryText.SplitKvBack | internal/gorrcd/config.go:138-146 | a written field splits into its name and value |
| RegistryText.InvitesRoundTrip | internal/gorrcd/rooms.go:458-471 | exactly the invitations still open when reading come back, with their expiry times |
| RegistryLines.HeaderBack | internal/gorrcd/rooms.go:522-528 | a section header gives back its room name, bare or quoted |
| RegistryLines.ParseRooms | internal/gorrcd/rooms.go:484-520 | the parser loop equals reading line by line |
| RegistryLines.WriteSections | internal/gorrcd/rooms.go:386-425 | the writer loop produces the lines of the file |
| RegistryLines.TextBack | internal/gorrcd/rooms.go:484-520 | written sections read back as the effect of their fields on a new room |
| RegistryFile.FieldsBack | internal/gorrcd/rooms.go:530-575 | the fields of a room rebuild it: founder, topic, flags, key, sets, invitations, last use |
| RegistryFile.RegistryRoundTrip | internal/gorrcd/rooms.go:386-603 | reading the written file gives back exactly the registered rooms, if and only if none with content has an empty name |
| RegistryWhole.WholeOk | internal/gorrcd/rooms.go:466-466 | whole numbers in decimal digits read back as they were, so there is a number type as the round trip asks for |
| RegistryWhole.RegistryListed | internal/gorrcd/rooms.go:386-425 | every registry whose times are numbers of the program has a listing of its rooms and sets for the writer |
| RegistryWhole.WholeSecondsRoundTrip | internal/gorrcd/rooms.go:386-603 | every registry with times in whole seconds has a text that reads back as its registered rooms, if and only if none with content has an empty name |
| PaperUri.DecodeEncode | pkg/lxmf/paper.go:23-42 | base64 decoding undoes encoding |
| PaperUri.PaperRoundTrip | pkg/lxmf/paper.go:16-49 | every non-empty payload up to the limit comes back from its URI, also with padding put back |
| PaperUri.PaperFits | pkg/lxmf/constants.go:190-196 | a URI fits the 2953 characters exactly when the payload is within the limit |
| PaperUri.IngestReadsSame | pkg/lxmf/router_propagation.go:642-655 | slashes in the body and the case of the scheme do not change what ingest reads |
| PaperUri.PaperIngests | pkg/lxmf/router_propagation.go:642-655 | what the writer makes of a payload within the limit, ingest reads back |

## Left out

- Transport, links, resources, identities, encryption and signature checks: abstract parameters or nondeterministic success.
- The contents of the SHA-256 compression round and of the HKDF workblock derivation: opaque functions.
- OpenCL loading, device choice and buffers: only the kernel's padding and acceptance test are modelled.
- The library path of `hashFromMidstateStamp`: it is a call into the standard library.
- LXST, RNV, the C interface and the Python and Rust bindings: separate protocols or thin wrappers.
- The RRC client, and the agreement of its room set with the hub: the hub does not announce kicks, so there is none.
- At-most-once delivery of `Router.handleDeliveryPayload`: its check and its update are separate critical sections.
- `messageGetRequestHandler`, `rotatePeers`, `syncPeers` and the scheduling of syncs: they only start or stop the modelled steps.
- A crash without a save: a node stops by saving and starts by loading.
- SyncMarks.HandledMarksSound: making an offer, answering it, and reading and sending the files of a transfer are one step each, and so is each ingest at the receiver; sync attempts with one peer do not overlap, where two calls of `sync` that both pass its unlocked state check could let the answer to one offer be applied to the list of the other.
- SyncProtocol.Transfer: a transfer that cannot be sent tears the link down; where packing fails or the link has gone, the code returns and leaves the peer in the state it was in.
- PeerSync.EstimateBoundsWire: the size that the resource layer reports is taken to be the encoded length.
- Files of the message store: index and files agree, and reading an entry's file succeeds.
- MessageId.UnpackOfPack: keys that normalise to one byte stay separate in the list, where the map keeps one of them.
- MsgPack.RoundTrip: extension types and 32-bit floats are not modelled; 64-bit floats are eight opaque bytes.
- The buffer filling of `Pack` and the default timestamp: packing is a concatenation with the timestamp given.
- Hub.HubServer: session records are values in a map keyed by session number, so sharing between the hub's maps and link callbacks is not modelled as aliasing.
- Hub.StepKeeps: limits are fixed during a run, and the zero identity hash is not special to the hub.
- Presence notices, ERROR and NOTICE replies, PING, resource envelopes and direct notices: they change no hub state.
- Policy.NextBars: no identity hashes to sixteen zero bytes, which the commands use for "no target"; file writes succeed; reloads are of unedited files.
- Room modes, topics and keys over runs: they are plain fields of the room that one command sets.
- The stages of command parsing before a command has its arguments, and the texts of notices.
- Lists of identities inside the configuration file are sets here; their text form is the one of the registry lists.
- RegistryFile.RegistryRoundTrip: lines fit the scanner's 64 KiB, texts are valid UTF-8, and the times written are numbers of the program's number type, whose positive ones read back from their text as they were. `RegistryWhole.WholeOk` gives such a type: whole numbers in decimal digits.
- Quoting.QuoteRoundTrip: octal escapes and hexadecimal escapes above 0x7f, which the writer never makes, read as malformed.
- Saving and loading the ticket book, and the record of last ticket deliveries, which nothing in the code writes.
- RateLimit.WindowBound: floating-point rounding is not modelled.
