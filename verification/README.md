# OMP Relay, verified

OMP Relay is a room-scoped message relay (a Rust server) and the extension that
connects to it (TypeScript). This project models the parts of both whose
correctness depends on whole runs, and proves what they promise.

| files | what they cover |
|---|---|
| `Basics`, `Octets`, `Totals` | shared types, fixed-width integers, sums over maps |
| `StoreModel`, `StoreIndex` | the payload store's index: first without counters, then as a class with the running counters and 64-bit arithmetic of the source |
| `StoreRuns`, `StoreSafety`, `StoreProgress`, `StoreLandings`, `StoreMirror` | the store at work: uploads, files, removals and the clock, interleaved one critical section or one file operation at a time; what stays true, what it delivers, and the counting class taken through any such run |
| `Registry`, `RelayRuns` | rooms, names and outbound queues, and connections interleaved one lock or one queue operation at a time |
| `Utf8`, `MessagePack`, `FrameBudget`, `FrameFields`, `ReplyPath` | what a frame costs and what it says, and the reader that claims an acknowledgement before it acts |
| `Framing`, `Base64Url`, `TransferRoute` | reassembly of frames, addresses, and the transfer route |
| `Correlation`, `RelayClient`, `ClientRuns` | the client's request table, its connection lifecycle, and what holds over its runs |
| `Session` | joins, session starts and shutdowns racing at their awaits |

`dafny verify dfyconfig.toml` checks everything.

How the models are built:

- State machines (`StoreRuns`, `RelayRuns`) take one step per critical section,
  queue operation or file operation, in any order. Their theorems speak of every
  state of every run. History fields in a state are marked as such and no step
  reads them.
- Classes (`Store`, `ServerState`, `Connection`, `FrameAccumulator`, `Client`,
  `Extension`) have the source's fields. `Connection.RunReader`, `Client.Run` and
  `Extension.Run` drive them with any sequence of events.
- What the platform decides comes in as a parameter: the hash (injective where a
  theorem says so), how a payload decodes, sampled instants, whether opening or
  writing a socket throws, the wording of an error, and what the registry or the
  store answers to a frame.
- The relay's reader and its writer are polled by one task and the reader does not
  await while it handles a frame, so a handler is one step.

Where code and its comments differ, the code is followed. The comment on serials
says one is taken per upload; the code also takes one when the upload is then
turned away because another is in flight, and so does the model.

One promise does not hold in general: that an answer settles the request it is
about. It fails in three ways, each with its run, although the relay answers every
request at most once:

- An error that names a token goes to the first reply space that holds the token.
  With the token pending in two spaces, that may be another request
  (`ClientRuns.SharedTokenMisleads`). With its own request no longer pending, a
  timed-out send for one, it is any request that took the token in another space
  (`ClientRuns.LateErrorMisleads`).
- An error that names nothing settles reservations it is not about. If the client
  then draws the same random token again, the late answer to the first reservation
  settles the second (`ClientRuns.ReusedReservationMisleads`).

The exact conditions hold on any run: `ClientRuns.ReplySettlesItsOwnExactly` for
replies, `ClientRuns.ErrorSettlesItsOwnExactly` for errors that name a token. For
replies `ClientRuns.AttributionIsExact` names the one event that can break it: a
request sent out under a key that still has an unanswered one. An error that names
a token must besides be found. `ClientRuns.EveryReplySettlesExactly` says that this
is all that can go wrong over a whole run, if an error that names nothing is only
sent about the one reservation pending; nothing is asked of the host. Two
guarantees follow: `ClientRuns.RepliesSettleWhatTheyAnswer`, if errors are named
only by tokens of one reply space, and
`ClientRuns.RepliesSettleDespiteNamelessErrors`, if reservations are refused by
nameless errors and no random token repeats while it is unanswered.

## Model

| member | source | states |
|---|---|---|
| `StoreModel.ChargeFor` | server/src/blob.rs:1308-1314 | The charge is a whole number of 64 KiB units, at least one, and the least that covers the bytes |
| `StoreModel.ReserveOk` | server/src/blob.rs:431-504 | Reserving keeps every room within its ceiling, the store within its own, and no room idle, whichever way it answers |
| `StoreModel.ReserveExactly` | server/src/blob.rs:431-504 | Exactly when a reservation is refused and by which bound, with what it replaces given back; a fresh grant is for two hours and leaves a reservation of a minute |
| `StoreModel.BeginOk` | server/src/blob.rs:545-611 | Starting an upload keeps the same; the charge moves from the reservation to the upload or is given back (when each happens is `BeginExactly`) |
| `StoreModel.BeginExactly` | server/src/blob.rs:545-611 | Exactly when an upload is accepted, already held, over what was reserved, or without a reservation it may use |
| `StoreModel.ReserveThenBegin` | server/src/blob.rs:431-611 | What was granted afresh can be taken up: any upload of up to the bytes reserved, until the minute is over |
| `StoreModel.AbandonOk` | server/src/blob.rs:621-638 | Abandoning an upload keeps the same, and drops a room it leaves idle |
| `StoreModel.CommitOk` | server/src/blob.rs:645-691 | Committing an upload keeps the same, as long as it wrote no more than its allowance |
| `StoreModel.ForgetOk` | server/src/blob.rs:699-711 | Forgetting a room keeps the same |
| `StoreModel.SweepOk` | server/src/blob.rs:718-768 | Sweeping keeps the same |
| `StoreModel.StoreCeilings` | server/src/blob.rs:91-116 | A sound index holds at most 256 MiB of charge, 4096 entries and 4096 rooms |
| `StoreModel.StoreFullMeansOtherRooms` | server/src/blob.rs:477-499 | A refusal for the whole store means at least eight other rooms hold charge |
| `StoreIndex.RetainReservations` | server/src/blob.rs:718-738 | The retain loop keeps exactly the unexpired reservations, and reports exactly what the dropped ones were charged |
| `StoreIndex.RetainPayloads` | server/src/blob.rs:738-752 | The retain loop keeps exactly the unexpired payloads, and reports their charge and which addresses went |
| `StoreIndex.Store.Reserve` | server/src/blob.rs:431-504 | With running counters and 64-bit arithmetic it does what the counter-free index does; counters stay equal to the sums and nothing over- or underflows |
| `StoreIndex.Store.BeginUpload` | server/src/blob.rs:545-611 | With running counters it does what the counter-free index does, whose answers `StoreModel.BeginExactly` gives exactly; a serial is spent exactly when the index changes |
| `StoreIndex.Store.AbandonUpload` | server/src/blob.rs:621-638 | The same for abandoning; the saturating subtraction never saturates |
| `StoreIndex.Store.CommitUpload` | server/src/blob.rs:645-691 | The same for committing; the store counter never rises |
| `StoreIndex.Store.ForgetRoom` | server/src/blob.rs:699-711 | The same for forgetting a room, and its directory is queued for removal exactly when the room was known |
| `StoreIndex.Store.DropRoomIfIdle` | server/src/blob.rs:773-781 | Drops a room exactly when nothing is reserved, uploading or stored in it |
| `StoreIndex.Store.PayloadLength` | server/src/blob.rs:511-520 | Answers the length of an unexpired stored payload and nothing else |
| `StoreIndex.Store.Removable` | server/src/blob.rs:800-828 | A payload file may go exactly while no stored or in-flight entry owns its address, a directory while its room is unknown |
| `StoreIndex.Store.Sweep` | server/src/blob.rs:718-768 | Leaves the swept index with balanced counters, queues each expired payload exactly once behind what was queued, and counts them |
| `StoreSafety.StepKeeps` | server/src/blob.rs:621-691 | Every step of the interleaved store keeps the invariant tying index, files, guards and pending file operations together (that uploads also succeed is `StoreProgress.IntactUploadIsStored`) |
| `StoreSafety.IndexAndFilesAgree` | server/src/blob.rs:645-691 | In every interleaving every file at a final address hashes to it, and every stored entry has its file, of the stated length |
| `StoreSafety.FetchFindsTheUpload` | server/src/blob.rs:511-528 | A lookup that answers leads to exactly the bytes that hash to the address |
| `StoreSafety.CeilingsHold` | server/src/blob.rs:477-499 | In every reachable state rooms hold at most 32 MiB and 512 entries, the store 256 MiB and 4096, and no room is idle |
| `StoreSafety.CommitNeverRaisesCharge` | server/src/blob.rs:666-689 | Finishing an upload never raises the charge of the store |
| `StoreSafety.FlightsHaveOneOwner` | server/src/blob.rs:564-610 | Every uploading entry belongs to exactly one live guard, for that room and address |
| `StoreSafety.LateUploadsChangeNothing` | server/src/blob.rs:1071-1077 | An upload that lost its entry changes nothing in the index, whether it commits late or is dropped |
| `StoreSafety.UploadsNeverOutnumberGrants` | server/src/blob.rs:564-610 | Accepted uploads of an address never outnumber its charged grants, and an unspent reservation is one grant more |
| `StoreSafety.UploadsComeFromReservations` | server/src/blob.rs:564-596 | Every live upload of a run goes back to a step that accepted it on a live reservation covering what it declares, and spent it |
| `StoreSafety.NothingLeaks` | server/src/blob.rs:718-768 | With every guard settled and every deadline passed, one sweep leaves no room and no charge |
| `StoreSafety.VisibleExactlyWhileLive` | server/src/blob.rs:511-520 | A payload is visible exactly while its commit is under two hours old and its room has not been forgotten |
| `StoreSafety.HeldGrantIsTheRemainder` | server/src/blob.rs:441-460 | Reserving a held payload, at any instant read up to the clock, grants exactly commit plus two hours minus that instant and changes nothing; until its two hours are over it is held |
| `StoreSafety.LiveCommitStays` | server/src/blob.rs:672-679 | No step but forgetting its room touches a live payload, so no lifetime is extended |
| `StoreSafety.FixedLifetime` | server/src/blob.rs:740-751 | Across any stretch of a run inside its two hours, a payload stays visible as it was stored |
| `StoreProgress.GrantIsHonoured` | server/src/blob.rs:431-611 | Over any stretch of a run inside its minute, a reservation granted afresh admits any upload of up to what it reserved, unless the payload is held by then or another upload of it is in flight |
| `StoreProgress.WriteTaken` | server/src/blob.rs:925-955 | A chunk ends the upload exactly if it exceeds what was declared; otherwise it is taken in behind what was there |
| `StoreProgress.FinishExactly` | server/src/blob.rs:1009-1048 | A finish is refused exactly if the length or the hash is not what was declared |
| `StoreProgress.FlightStays` | server/src/blob.rs:621-691 | Only the end of its room, or its own end, takes an address from the upload that has it |
| `StoreProgress.IntactUploadIsStored` | server/src/blob.rs:925-1068 | On any run, an upload that was accepted and is sent exactly what it declared is stored by the last resumption after its finish, with its bytes at its address and its commit at that clock, unless it is dropped, breaks off, meets a failed file operation or its room ends |
| `StoreLandings.UploadsAreNeverStuck` | server/src/blob.rs:1036-1048 | In every state of every run an upload that has its address and waits for a file operation can go on: its temporary file is there, so only the platform can fail it |
| `StoreMirror.MirrorStep` | server/src/blob.rs:431-768 | The class does for every step of a run what the step does to the index, the serials and the removal queue; a commit’s allowance is proved, not assumed |
| `StoreMirror.MirrorRun` | server/src/blob.rs:431-768 | Conservation over whole runs: a store taken through any run has, at every state, a running charge equal to the sum of that state’s entries, and a commit never raises it |
| `Registry.ServerState.Register` | server/src/relay.rs:239-268 | A new connection gets an id nobody has, owns the name, and whoever held it is told |
| `Registry.ServerState.Insert` | server/src/relay.rs:239-266 | Takes the name, sets the evict flag of exactly the connection displaced, and keeps every room non-empty |
| `Registry.ServerState.Deregister` | server/src/relay.rs:276-317 | Gives the name up only while it is still the connection’s own, drops the room it empties, and has the store forget exactly that room |
| `Registry.ServerState.Route` | server/src/relay.rs:351-371 | Offers the payload to the registered recipient’s queue and to no other; routed exactly if that queue is open with room, backpressure exactly if it is open and full, offline otherwise |
| `Registry.ServerState.FanOut` | server/src/relay.rs:387-413 | Offers the payload once to each other name of the room; delivered plus shed is their number |
| `Registry.ServerState.Snapshot` | server/src/relay.rs:388-400 | The recipients of a fanout are exactly the other names of the room, once each, and every one has a queue |
| `Registry.Collect` | server/src/relay.rs:388-400 | Lists every name once, beside its handle |
| `Registry.OfferAll` | server/src/relay.rs:402-412 | The counting loop offers to each handle in turn, counts what was taken, and keeps queues within capacity |
| `RelayRuns.OwnerIsLastArrival` | server/src/relay.rs:239-318 | With id allocation and insertion apart, a name belongs to the last connection to insert until that one deregisters; no empty room is kept |
| `RelayRuns.DisplacedAreTold` | server/src/relay.rs:239-318 | Every connection that registered is registered, flagged as displaced, or gone by itself, never two of these |
| `RelayRuns.StaleDeregisterChangesNothing` | server/src/relay.rs:479-501 | A displaced connection’s deregistration changes nothing; any other frees exactly its own name |
| `RelayRuns.DeliveriesFollowReadOrder` | server/src/relay.rs:351-413 | What one sender placed in one queue follows its read order across sends and announcements, stays in its room, and never goes to the announcer’s name |
| `RelayRuns.QueuesAreBounded` | server/src/relay.rs:416-425 | A queue is what was placed and not yet taken, in order, and never longer than 128 |
| `RelayRuns.FanoutIsAccounted` | server/src/relay.rs:387-413 | When a fanout is done, delivered plus shed is the number of other names at its snapshot, and delivered is the number of queues that took it |
| `RelayRuns.EnqueueExactly` | server/src/relay.rs:416-425 | An open queue with room takes the item at its end, a closed or full one stays as it is, no other queue changes, and either is counted |
| `RelayRuns.SendReaches` | server/src/relay.rs:351-371 | On any run a send to a registered name is placed behind what waits in the queue of whoever held the name when it was read, exactly if that queue is open and has room when its turn comes |
| `ReplyPath.Connection.EnqueueReply` | server/src/relay.rs:1906-1929 | A lossy reply never takes the reserved slot, and only a closed channel breaks |
| `ReplyPath.Connection.ReserveAcknowledgement` | server/src/relay.rs:1952-1959 | A slot is claimed exactly when one besides the reserved one is free and the channel is open |
| `ReplyPath.Connection.ClaimAcknowledgement` | server/src/relay.rs:1972-1997 | No slot means a closing diagnostic with the idle-timeout code and no acknowledgement |
| `ReplyPath.Connection.QueueDiagnostic` | server/src/relay.rs:2045-2057 | On an open channel the closing diagnostic always finds room, and it fits the frame cap |
| `ReplyPath.Connection.Perform` | server/src/relay.rs:1476-1490 | An effect is performed only with its slot claimed, and leaves its acknowledgement owed |
| `ReplyPath.Connection.FillSlot` | server/src/relay.rs:1495-1496 | Filling the slot with what is owed settles the connection |
| `ReplyPath.Connection.Submit` | server/src/relay.rs:1464-1496 | Claim, effect, reply, in this order; without room, or unwritable, nothing is performed and the reason is stated, each with its code |
| `ReplyPath.Connection.HandleSend` | server/src/relay.rs:1360-1497 | A valid send is routed exactly when its receipt has a slot; otherwise nothing is performed; exactly which sends end the connection and with which stated reason; and which reply each other send gets |
| `ReplyPath.Connection.HandleAnnounce` | server/src/relay.rs:1510-1613 | The same for a fanout and its acceptance |
| `ReplyPath.Connection.HandleReserve` | server/src/relay.rs:1633-1703 | The same for a reservation and its answer |
| `ReplyPath.Connection.HandleFrame` | server/src/relay.rs:1234-1332 | The same for every frame: a pong for a ping alone, a roster with its token for a valid list alone, a clamped `invalid_target` for a mistargeted send alone, acknowledgements and rejections field by field; and no delivery of a registered peer is ever unwritable |
| `ReplyPath.Connection.HandleInbound` | server/src/relay.rs:1079-1117 | Exactly which reads end the connection, given the load of the channel; those perform nothing, and exactly which of them state a reason, and which one |
| `ReplyPath.Connection.RunReader` | server/src/relay.rs:988-1060 | For any frames and any writer: it stops at the first event that ends a connection and at no other, effects are those asked for before it, acknowledgements match them one to one in order, what is placed is exactly the reply each event that found room was due, and a closing diagnostic is queued exactly if the last event calls for one, with its code, behind everything else |
| `ReplyPath.RostersAnswerLists` | server/src/relay.rs:1260-1282 | The rosters among the replies match, one to one and in order, the valid lists that found room |
| `ReplyPath.Connection.ReplyTo` | server/src/relay.rs:1906-1929 | A reply that is due leaves the connection open and is placed exactly if there is room |
| `ReplyPath.Connection.RefuseOverBudget` | server/src/relay.rs:2009-2036 | An over-budget body performs nothing and closes with `frame_too_large` |
| `ReplyPath.Connection.SubmitFor` | server/src/relay.rs:1464-1496 | What passed every check is performed, as the frame asked, exactly when its acknowledgement has a slot, and the acknowledgement says what was done |
| `Utf8.DecodeEncode` | server/src/relay.rs:1805-1814 | Decoding an encoding gives the string back (section 3 of RFC 3629) |
| `Utf8.EncodeDecode` | server/src/relay.rs:1805-1814 | Only encodings of strings decode |
| `Utf8.KnownEncodings` | server/src/relay.rs:1805-1814 | One character of each encoded length (section 7 of RFC 3629) |
| `Utf8.BoundaryIsWellFormed` | server/src/relay.rs:1808-1810 | The character boundaries of well-formed text are exactly where its well-formed prefixes end |
| `Utf8.Clamp` | server/src/relay.rs:2084-2093 | The clamping loop returns the longest well-formed prefix within the limit |
| `Utf8.ClampText` | server/src/relay.rs:2084-2093 | Seen from the string, it keeps as many whole characters as fit |
| `FrameBudget.BoundedTarget` | server/src/relay.rs:1805-1814 | An echoed target is clamped to 64 bytes, and every receipt built from it fits the cap |
| `FrameBudget.CapDiagnostic` | server/src/relay.rs:2084-2093 | A diagnostic is clamped to 1024 bytes, and every error frame built from it fits the cap |
| `FrameBudget.DeliveryFits` | server/src/protocol.rs:67-86 | Every accepted send or announce yields a frame at least 91 bytes under the cap, and a notice is one byte smaller than a message |
| `FrameBudget.LargestDelivery` | server/src/protocol.rs:44-67 | With every field at its limit exactly 91 bytes are left |
| `FrameFields.DeliverySays` | server/src/protocol.rs:314-364 | Read back from its bytes, a delivery holds each submitted value under its own key, `reply_to` and `attachment` exactly if given, and nothing else |
| `FrameFields.ReceiptSays` | server/src/protocol.rs:365-372 | The same for a receipt |
| `FrameFields.AcceptedSays` | server/src/protocol.rs:381-391 | The same for an acceptance and its two counts |
| `FrameFields.ReservedSays` | server/src/protocol.rs:393-412 | The same for the answer to a reservation, with a lifetime exactly if there is one |
| `FrameFields.ErrorSays` | server/src/protocol.rs:416-425 | The same for an error, with the token exactly if one is named |
| `FrameFields.PongSays` | server/src/protocol.rs:413-414 | A pong holds its type and nothing else |
| `FrameFields.TextsDiffer` | server/src/protocol.rs:471-535 | No two receipt statuses and no two reserve statuses are written alike |
| `FrameFields.CodesDiffer` | server/src/protocol.rs:572-584 | No two error codes are written alike |
| `FrameFields.PongBytes` | server/src/protocol.rs:659-664 | The octets of the shortest frame |
| `FrameBudget.NamesAtTheLimit` | server/src/protocol.rs:820-858 | Names of 1 to 64 bytes and tokens of 1 to 128 are valid, and where else the rules draw their lines |
| `FrameBudget.ReceiptFits` | server/src/relay.rs:1390-1400 | A receipt is at most 246 bytes |
| `FrameBudget.DiagnosticFits` | server/src/relay.rs:2045-2057 | A closing diagnostic is at most 1073 bytes |
| `FrameBudget.DigestLen` | server/src/protocol.rs:896-911 | A valid digest is 43 bytes |
| `MessagePack.MapRoundTrip` | server/src/protocol.rs:659-664 | A written map reads back to its fields, so no two field lists share an encoding |
| `Framing.ParseAppend` | extension/src/protocol.ts:602-661 | Reading on from what was left is the same as reading the whole stream |
| `Framing.RestIsBounded` | extension/src/protocol.ts:594-661 | Never more than 65539 bytes are retained |
| `Framing.FrameAccumulator.Push` | extension/src/protocol.ts:602-661 | After any pushes, the values returned, the buffer and the latched failure are those of a one-pass parse of everything pushed |
| `Framing.Extract` | extension/src/protocol.ts:609-656 | The offset loop computes the one-pass parse of the buffer |
| `Framing.Reassemble` | extension/src/protocol.ts:592-672 | However a stream is cut into chunks, its values and its failure are those of the one-pass parse |
| `Framing.FramesRoundTrip` | extension/src/protocol.ts:476-488 | Frames written one after another parse back to exactly their payloads’ values |
| `Framing.FirstBadFrameEnds` | extension/src/protocol.ts:609-656 | After good frames the first empty, oversized or undecodable one ends the stream with its own failure, whatever follows |
| `Framing.EncodeFrame` | extension/src/protocol.ts:476-488 | Refuses exactly a targeted announce or an oversized payload; otherwise writes the prefix and the payload, first octet zero |
| `Framing.PrefixOfFramed` | server/src/relay.rs:637-642 | The prefix of a frame reads back as its length, and its first octet is the zero dispatch expects |
| `Base64Url.Base64` | server/src/blob.rs:1360-1376 | The nested loops compute the encoding |
| `Base64Url.DecodeEncode` | server/src/blob.rs:1360-1376 | The encoding can be read back, so it is injective (section 5 of RFC 4648) |
| `Base64Url.LettersInOrder` | server/src/blob.rs:175 | The alphabet, by the codes its ranges begin and end with |
| `Base64Url.KnownAddresses` | server/src/blob.rs:1360-1376 | The test vectors of section 10 of RFC 4648, unpadded |
| `Base64Url.EncodedLength` | server/src/blob.rs:1360-1376 | The length of an encoding; three octets give four characters, two three, one two |
| `Base64Url.AddressesAreFaithful` | server/src/blob.rs:1341-1353 | A 32-octet hash encodes to a 43-character valid digest, and different hashes to different ones |
| `Base64Url.RoomBytesInjective` | server/src/blob.rs:1332-1338 | The length-prefixed encoding of a room determines the room |
| `Base64Url.RoomsHaveOwnDirectories` | server/src/blob.rs:1332-1338 | Under a collision-free hash distinct rooms have distinct directories |
| `TransferRoute.PercentDecode` | server/src/http.rs:485-502 | The index loop computes the decoding, malformed escapes and bad UTF-8 included |
| `TransferRoute.UnescapesExactly` | server/src/http.rs:485-502 | A text is refused exactly if some percent sign is not followed by two hexadecimal digits |
| `TransferRoute.PathSegmentRoundTrip` | extension/src/client.ts:446-448 | A path segment decodes to the component it was made from |
| `TransferRoute.PathSegmentPlain` | extension/src/client.ts:446-448 | No path segment contains a slash, and only an empty component gives an empty one |
| `TransferRoute.RouteRoundTrip` | server/src/http.rs:464-478 | Parsing the path built for a room and a digest gives both back if both components are non-empty, and nothing otherwise |
| `Correlation.EndedOk` | extension/src/client.ts:1695-1699 | After a connection ends nothing is pending, and each request made is still accounted for once |
| `Correlation.ReplySettlesExactly` | extension/src/client.ts:1644-1651 | A reply settles the request it answers, or nothing, if and only if that request is not orphaned (unanswered, neither pending nor tombstoned) under a key another request holds |
| `Correlation.ErrorSettlesExactly` | extension/src/client.ts:1666-1673 | A named error settles the request it answers, or nothing, if and only if the search of the reply spaces comes to that request’s key (to none if nobody holds it) and the request is not orphaned under a key another one holds; also for a request already settled |
| `Correlation.IssueAttributesExactly` | extension/src/client.ts:1544-1624 | A new request leaves every key with the request its answers are for, if and only if nothing unanswered went out under its key before |
| `ClientRuns.SharedTokenMisleads` | extension/src/client.ts:1666-1673 | A run in which an error about a send settles a list of the same token, and the late roster then settles the list asked for next |
| `ClientRuns.ReusedReservationMisleads` | extension/src/client.ts:1382-1406 | A run in which a reservation refused by a nameless error is answered after its token was reused, and settles the second |
| `ClientRuns.LateErrorMisleads` | extension/src/client.ts:1666-1673 | A run in which a send times out, a list takes its token, and the late error about the send settles the list, though every key is held by the request its answers are for |
| `ClientRuns.Mislead` | extension/src/client.ts:1264-1317 | A new client goes through all three runs |
| `ClientRuns.SettlesAtMostOnce` | extension/src/client.ts:1675-1693 | Over any stretch of any run a settled request stays settled as it was, and every request made is pending or settled, never both |
| `ClientRuns.NothingOutlivesItsConnection` | extension/src/client.ts:1423-1441 | Whatever ends a connection, nothing it carried stays pending and no deadline or tombstone stays |
| `ClientRuns.NeverRevived` | extension/src/client.ts:1464-1471 | Until the host starts it, a stopped client has no socket, timer or pending request |
| `ClientRuns.StopsForGood` | extension/src/client.ts:1353-1358 | Stopping and being displaced both stop the client |
| `ClientRuns.EndsExactly` | extension/src/client.ts:1156-1247 | Exactly which events end a connection |
| `ClientRuns.SettledForAReason` | extension/src/client.ts:1264-1449 | Exactly what settles a pending request and with which outcome: its timer, the answer that reaches its key, the host’s stop, or the end of its connection |
| `ClientRuns.IssuedForAReason` | extension/src/client.ts:1544-1624 | Exactly what becomes of a new request, by the first reason that holds |
| `ClientRuns.EveryReplySettlesExactly` | extension/src/client.ts:1264-1317 | With a relay that answers each written request at most once and sends a nameless error only about the one reservation pending, all replies and named errors of a run settle what they answer if and only if the search by token comes to the right request at every named error |
| `ClientRuns.RepliesSettleWhatTheyAnswer` | extension/src/client.ts:1297-1311 | With a relay that answers each written request at most once, names errors by tokens of one reply space and sends a nameless error only about the one reservation pending, every reply and named error of a run settles what it answers |
| `ClientRuns.RepliesSettleDespiteNamelessErrors` | extension/src/client.ts:1382-1406 | Every reply and named error settles what it answers also if nameless errors refuse several reservations, as long as named errors find their request and no reservation reuses a token still unanswered |
| `ClientRuns.ReplySettlesItsOwnExactly` | extension/src/client.ts:1297-1311 | On any run, the exact condition for a reply to settle the request it answers |
| `ClientRuns.ErrorSettlesItsOwnExactly` | extension/src/client.ts:1360-1369 | On any run, the exact condition for a named error to settle the request it answers, pending or not |
| `ClientRuns.AttributionIsExact` | extension/src/client.ts:1544-1624 | On any run and with any relay, the only event after which a key is held by another request than its answers are for is a request sent out under a key with an unanswered one |
| `RelayClient.Client.SettleKey` | extension/src/client.ts:1675-1693 | Settles one entry once: it leaves the table, its timer goes, its outcome is recorded |
| `RelayClient.Client.FailPending` | extension/src/client.ts:1695-1699 | Settles every pending entry alike |
| `RelayClient.Client.OpenConnection` | extension/src/client.ts:1156-1174 | Ends with a socket, or with an armed reconnect if opening throws |
| `RelayClient.Client.CloseConnection` | extension/src/client.ts:1423-1449 | Tears the current connection down once and arms a reconnect unless stopped; a stale socket changes nothing |
| `RelayClient.Client.Start` | extension/src/client.ts:551-559 | Starts a stopped client and leaves a running one alone |
| `RelayClient.Client.Stop` | extension/src/client.ts:568-609 | Leaves no socket, no timer and no pending request |
| `RelayClient.Client.WriteEncoded` | extension/src/client.ts:1716-1728 | A write either arms the heartbeat or ends the connection |
| `RelayClient.Client.Issue` | extension/src/client.ts:1544-1624 | What a request becomes, by phase, token and outcome of the write |
| `RelayClient.Client.FlushUnwritten` | extension/src/client.ts:1627-1635 | Writes every held request, or ends the connection as if none had been |
| `RelayClient.Client.SettleEither` | extension/src/client.ts:1666-1673 | Settles the first reply space that holds the token, and no other |
| `RelayClient.Client.SettleReserves` | extension/src/client.ts:1382-1406 | Settles every pending reservation and nothing else |
| `RelayClient.Client.HandleError` | extension/src/client.ts:1340-1414 | The four meanings of an error frame; displacement stops the client |
| `RelayClient.Client.Dispatch` | extension/src/client.ts:1264-1317 | What each frame does to the requests in each phase |
| `RelayClient.Client.Receive` | extension/src/client.ts:1214-1247 | A frame from a socket that is not current changes nothing |
| `RelayClient.Client.Connected` | extension/src/client.ts:1181-1193 | The handshake deadline is armed on the current socket only |
| `RelayClient.Client.ReconnectFires` | extension/src/client.ts:1464-1471 | The reconnect timer opens a connection or arms the next attempt |
| `RelayClient.Client.HandshakeFires` | extension/src/client.ts:1489-1500 | The handshake deadline ends the connection it was armed for |
| `RelayClient.Client.HeartbeatFires` | extension/src/client.ts:1522-1531 | A heartbeat writes only when ready; otherwise nothing changes |
| `RelayClient.Client.RequestTimesOut` | extension/src/client.ts:1590-1618 | A timeout settles its request, and spends the token exactly when the request went out |
| `RelayClient.Client.Handle` | extension/src/client.ts:1156-1212 | What each event does to requests and connection; a running client keeps exactly one of a socket and an armed reconnect, a stopped one nothing |
| `RelayClient.Client.Run` | extension/src/client.ts:551-609 | Any sequence of events gives a run: sound at every moment, each moment following from the one before, stale sockets changing nothing |
| `Session.Extension.Connect` | extension/src/index.ts:1266-1350 | Installs a new client as the only running one |
| `Session.Extension.JoinResolved` | extension/src/index.ts:1361-1426 | A superseded or failed join changes nothing; only the newest generation installs a client |
| `Session.Extension.JoinStopped` | extension/src/index.ts:1418-1426 | The same after the previous client has stopped |
| `Session.Extension.JoinListed` | extension/src/index.ts:1448-1488 | Only the newest join reports, it reports the current client and the place that client is in, and under manual it carries the purpose exactly if the session has not handed it out |
| `Session.Extension.SessionStarts` | extension/src/index.ts:1599-1613 | A session starts with every client stopped and no debt |
| `Session.Extension.StartResolved` | extension/src/index.ts:1640-1656 | Only the newest start installs a client |
| `Session.Extension.SessionShutsDown` | extension/src/index.ts:1658-1670 | Leaves every client stopped and no debt |
| `Session.Extension.OnDelivery` | extension/src/index.ts:1303-1313 | A deferred notice leaves the purpose owed; any other delivery pays it once |
| `Session.Extension.Handle` | extension/src/index.ts:1361-1488 | Every resumption and handler does what `Next` says, and keeps at most one running client, a newest task that knows which client is current and where, and an unspent debt |
| `Session.Extension.Run` | extension/src/index.ts:1599-1670 | Over any interleaving at most one client runs, and two hand-outs of the purpose have a session start between them |
| `Session.NewestInstalls` | extension/src/index.ts:1361-1426 | On any run only a resumption of the newest generation installs a client, and a new one |
| `Session.JoinLeads` | extension/src/index.ts:1386-1426 | A newest join that resolves keeps the client exactly if it is ready in that very place; otherwise the old one is stopped first, or a new one is there at once |
| `Session.JoinGoesOn` | extension/src/index.ts:1412-1426 | Once the old client has stopped, a newest join has a new one in the place it resolved to |
| `Session.JoinReports` | extension/src/index.ts:1361-1488 | On any run, a join nothing supersedes reports the place it resolved to, from a client in that place, and says the connection was kept exactly if that client was ready there before |
| `Session.ReportsNameThePlace` | extension/src/index.ts:1448-1488 | Every report of any run comes from the newest generation and names the current client and its place |
| `Session.StartGoesOn` | extension/src/index.ts:1599-1634 | An interactive start goes through stopping, if there is a client, and loading to resolving |
| `Session.StartLeads` | extension/src/index.ts:1640-1656 | A newest start that resolves leads to a new client in that place |
| `Session.PurposeRidesFirstDelivery` | extension/src/index.ts:1303-1313 | Under auto the purpose a configuration names rides the first delivery that is not deferred, unless the session has handed it out |
| `Session.HandsOncePerSession` | extension/src/index.ts:1239-1313 | Two hand-outs of the purpose have a session start between them |

## Left out

- Sockets, HTTP, task scheduling, logging, signals and directory permissions: platform calls. A file write is taken as complete when it returns.
- SHA-256 and MessagePack decoding by the libraries: the hash is a parameter, and decoding a payload is an arbitrary total function.
- The gap between looking at the index and unlinking a file (server/src/blob.rs:1184-1186): the model takes both as one step.
- That a room with a live peer keeps its payloads: deregistration releases the registry lock before it forgets the room, so this is not claimed.
- That no stray file survives: a skipped removal of a room's directory is not queued again, so this is not claimed.
- That a superseded reader handles no further frame, or that every `invalid_target` receipt is delivered: the code promises neither.
- `peers` replies and recoverable error texts are kept out of the frame-size results: the first have no bound, and the second's wording is not modelled.
- That reservation tokens are random and so never repeat: the results say what holds if they do not, and what fails if they do.
- Whether a reply's type matches the request it settles: a mismatch rejects the caller's promise, and the model records it as a reply.
- Payload transfers of the client, their stall timers and the URL parser of `fetch`: the round trip is about the two string functions.
- Wrap-around of upload serials and connection ids at 64 bits: they are unbounded here.
- Strings are sequences of Unicode scalar values, so a lone surrogate, on which the extension's percent-encoding throws, cannot occur.
- Host callbacks that call back into the client while it runs a handler.
- Configuration files, wording of results, the reception widget, draft protection, attachment saving and backoff jitter: user interface, the file system, or code without a property over runs.
- Registry.ServerState.FanOut: takes the lookup and the enqueues as one call; `RelayRuns` separates them.
- StoreIndex.Store.CommitUpload: requires that the upload wrote no more than its allowance; `StoreMirror.MirrorResume` proves it of every upload of every run.
- StoreMirror.MirrorRun: assumes declared sizes below 2 to the 64, the width they arrive in.
- Base64Url.RoomBytesInjective: assumes components shorter than 2 to the 64 bytes, the width of the length prefix.
- MessagePack.MapRoundTrip: assumes fewer than sixteen fields and texts under 2 to the 32 bytes, which holds of every frame the relay builds.
- The upload guard is a value in `StoreRuns`, not a class, because file operations outlive it and interleave with other guards.
