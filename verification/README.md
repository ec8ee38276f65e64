# TinyMeshChat protocols in Dafny

TinyMeshChat is a peer-to-peer chat for meshes of at most six members. It speaks several small
protocols of its own, and this project models them and proves what they promise:

1. **File transfer** (`Transfer*.dfy`, `FileTransferService.dfy`). Two endpoints run the code of
   `FileTransferService` over a link that drops and comes back. In every run the received bytes are a
   prefix of the source, the window of chunks in flight is exact, and "complete" means saved.
2. **Flooding and routes** (`SignalingRouter.dfy`, `PacketHandlers.dfy`, `Flood*.dfy`, `ReplyProofs.dfy`,
   `RouteWalks.dfy`, `RouteSources.dfy`). Announcements and route requests flood a fixed graph, replies walk back.
   Every delivery order is covered, and every mixture with other packets, peer lists, link offers and new links.
3. **The signaling server** (`ServerMessages.dfy`, `RoomRegistry.dfy`, `RoomProofs.dfy`, `Presence*.dfy`,
   `ServerSystem.dfy`, `ServerProofs.dfy`, `SnapshotDelivery.dfy`, `SignalingServer.dfy`,
   `SnapshotArrival.dfy`). Two coupled registries and a re-entrant delivery loop whose sends may fail.
4. **Audio buffers** (`RingArithmetic.dfy`, `SpscRingRuns.dfy`, `SpscRing.dfy`, `ModularArithmetic.dfy`,
   `RtpUnwrap.dfy`, `RemoteAudioStream.dfy`, `JitterProofs.dfy`, `JitterLateness.dfy`).
   A lock-free ring under every interleaving, and a jitter buffer over every arrival order.
5. **The compact invitation codec** (`CompactStream.dfy`, `Utf8.dfy`, `SdpDescriptionCodec.dfy`,
   `SdpCodecProofs.dfy`, `SdpCutProofs.dfy`, `CandidateText.dfy`, `MarkerProofs.dfy`, `CandidateLineProofs.dfy`,
   `CandidateTextProofs.dfy`, `CandidateLibrary.dfy`, `SdpTexts.dfy`, `SdpTextProofs.dfy`,
   `SdpDescriptionStream.dfy`, `FingerprintText.dfy`, `InvitationCodec.dfy`).
   From texts to bytes and back, with the substitution that builds a candidate's text. Packing and unpacking are
   inverse, and exactly where they are not is said below.
6. **Room recovery** (`RoomRecovery.dfy`, `RecoveryProofs.dfy`, `RecoveryRefinement.dfy`). Clients agree on the
   smallest room, and each client's own steps are those of that agreement.
7. **Screen sharing** (`ScreenShare.dfy`, `ScreenShareProofs.dfy`, `ScreenReplays.dfy`, `ScreenOwners.dfy`).
   Images in parts, when pictures can go back, and one owner.
8. **Links** (`ConnectionManager.dfy`, `ConnectionProofs.dfy`; `AudioTransportWorker.dfy`,
   `AudioRouteProofs.dfy`, `AudioHandshakes.dfy`; `TextChannel.dfy`). Deadlines, grace periods and
   generations; one audio route for each peer; text that waits its turn.
9. **The signed transcript** (`Transcript.dfy`) and **chat** (`Messaging.dfy`, `MessagingProofs.dfy`): the
   duplicate filter, and clocks that put causes first.

## How the model is built

Objects that change their fields in the program are classes here, with the same fields and the same loops.
Each method's contract ties the new state to a function on values, and the lemmas about whole runs are
about those functions. A run is any sequence of steps: deliveries, timers, user commands, lost links,
accesses of two threads. Hash tables are iterated in an arbitrary order. Identifiers from a random
generator are parameters, drawn until they are free where the code retries. Clocks and the results of
sockets, disks, decoders and signatures are parameters or nondeterministic choices. So is what Qt does with plain
addresses and numbers (`CandidateTexts.Library`); what is asked of it is `Sane` and `Reliable`, and can be met
(`CandidateLibrary.ReliableExists`).

## Where the code does less than its words

- `SdpDescriptionCodec::unpack` builds the text of a candidate with chained `.arg` calls
  (`client/src/network/sdp_description_codec.cpp:353-359`). Each replaces the lowest place marker anywhere in the
  text, in what the calls before put in as well. A foundation of `%2` comes out as the priority
  (`SdpTextProofs.FoundationOverwritten`), and an IPv6 scope of `4` as the port, appended to the address
  (`SdpTextProofs.ScopeOverwritten`). A scope's bytes also go through UTF-8 (lines 210 and 345 of the same file), and
  the text is split at blanks: a scope of the byte 0xFF comes back as three others
  (`SdpTextProofs.ScopeReplacedByText`). A candidate comes back exactly if its foundation holds no marker numbered 5
  or less, and its scope is well-formed UTF-8 with no byte order mark before it, no percent sign and no white space
  in it, and does not make a marker numbered 5 or less behind the address's percent sign
  (`CandidateLineProofs.Plain`, `CandidateTextProofs.TextReadBack`).
- `unpack` does not look at the stream after an IPv4 address (lines 319-323 of the same file). A payload cut inside
  its last IPv4 address is accepted, the address read as 0.0.0.0 (`SdpCutProofs.CutShortAccepted`). An accepted
  payload packs to itself exactly if it is not cut there, its candidates are plain in the sense above, and its
  credentials, which are handed on as text, are well-formed UTF-8 (`SdpTextProofs.PackUnpacked`).
- `pack` accepts foundations that `unpack` refuses (lines 285-293 of the same file): whatever the split at blanks lets
  through, an accented letter for one (`SdpTextProofs.AccentRefused`). Unpacking gives the packed description back
  exactly when every foundation is visible ASCII and every candidate plain (`SdpTextProofs.UnpackPacked`).
- A peer list and a link's offer or answer record a route of two hops, however far the peer is
  (`client/src/app/network_session_packets.cpp:171-191` and `302-325`). On a line of four members the first takes the
  last for two hops away, and a later announcement over the same connection does not correct it
  (`RouteSources.LineOfFour`). All hop counts stay the lengths of real walks exactly if each peer that such a packet
  gives a new or shorter route is a neighbour of who sent the packet on (`RouteSources.SnapshotRealIff`,
  `RouteSources.SignalRealIff`).
- The receiver of a file remembers only 1024 dismissed transfers
  (`client/src/transfers/file_transfer_service.cpp:202-212`). Once one is forgotten, an old offer can start it
  again. In the middle of its chunks, the "order broken" failure is reached, for every file of more than one
  chunk (`TransferForgotten.ForgettingBreaksTheOrder`). Between the acknowledgement of the last byte and the
  Finish, an honest Finish of a fully acknowledged file fails the integrity check, for every file of one chunk
  (`TransferLateFinish.ForgettingFailsTheFinish`). So exactly the empty file has no failing run
  (`TransferLateFinish.CanFailIffNotEmpty`), and which message fails is known in every state
  (`TransferTheorems.FailsIff`). While nothing is forgotten none does (`TransferTheorems.NeverOutOfOrder`); that
  a saved file is the source holds in either case.
- `clearRemote(false)` forgets the number of the picture shown last, and the stream may be announced again
  (`client/src/sharing/screen_share_service.cpp:238-251`, `367-376`, `408-409`). After a lost link or five silent
  seconds the pictures of one stream can go back (`ScreenReplays.PicturesGoBack`). They cannot, however it goes
  on while stopped streams are remembered, exactly if the stream is stopped (`ScreenReplays.NeverBackIffStopped`);
  and while the link lasts as well, exactly if it is that, or is watched and has caught up with that picture or can
  only go past it (`ScreenReplays.NeverBackLinkedIff`).
- Only the last 128 stopped streams are remembered (lines 92-99 of the same file), so a stream stays stopped
  exactly that long (`ScreenShareProofs.StoppedStaysAway`).
- The refusals of `presence.publish` (identity in use, too many profiles) cannot happen to a client of the
  server (`ServerProofs.PublishNeverRefused`).
- `discardObsoletePackets` never finds a packet to discard (`JitterProofs.NothingObsolete`).

## What their callers keep to

Two parts of the program would misbehave on inputs that no caller gives them.

- The audio worker by itself would keep queued frames under a peer's name when their connection is given another
  peer (`AudioRouteProofs.RelabellingMixes`, `AudioRouteProofs.NewestIffNotRelabelled`). The connection manager
  only ever names the peer of the link (`client/src/app/connection_manager.cpp:243` and `593`), and a hello under
  another identity discards the connection (`client/src/app/network_session_packets.cpp:111-126`). With that
  handshake it does not happen, whatever hellos arrive (`AudioHandshakes.OneStreamEachPeer`).
- `transcript` would be ambiguous for domains that contain a NUL (`Transcripts.NulDomainsCollide`). Every caller
  passes a constant domain without one; for those, and for any two field lists under one domain, it is not
  (`Transcripts.TranscriptsDiffer`).

## Model

| member | source | states |
|---|---|---|
| FileTransferService.Service.AcceptFile | client/src/transfers/file_transfer_service.cpp:176-190 | Accepting an offer opens the destination and promises the receiver's position, for an incoming entry only |
| FileTransferService.Service.CancelFile | client/src/transfers/file_transfer_service.cpp:192-200 | Cancelling drops both files and owes the peer a Cancel, unless the transfer had ended |
| FileTransferService.Service.DismissFile | client/src/transfers/file_transfer_service.cpp:202-212 | A finished entry is replaced by the reply it would still give |
| FileTransferService.Service.SetConnected | client/src/transfers/file_transfer_service.cpp:214-226 | Losing or regaining the link puts a sending transfer back to its offer |
| FileTransferService.Service.ForgetPeer | client/src/transfers/file_transfer_service.cpp:228-234 | A removed peer's transfer is cancelled with nothing owed |
| FileTransferService.Service.ClearAll | client/src/transfers/file_transfer_service.cpp:236-249 | Leaving the mesh cancels a live transfer and tells the peer at once |
| FileTransferService.Service.ReceiveMessage | client/src/transfers/file_transfer_service.cpp:251-371 | One frame is handled as the protocol function says, with its reply |
| FileTransferService.Service.TakeOffer | client/src/transfers/file_transfer_service.cpp:267-294 | A repeated offer gets the answer of the state it meets; a new one gets an entry or a Cancel |
| FileTransferService.Service.TakeAsSender | client/src/transfers/file_transfer_service.cpp:317-337 | Accept, Ack and Complete at the sending end |
| FileTransferService.Service.TakeAsReceiver | client/src/transfers/file_transfer_service.cpp:338-370 | Chunk and Finish at the receiving end, with the order and integrity checks |
| FileTransferService.Service.HashPiece | client/src/transfers/file_transfer_service.cpp:389-403 | One budgeted step of hashing the source before it is offered |
| FileTransferService.Service.FillWindow | client/src/transfers/file_transfer_service.cpp:415-424 | The chunk loop sends exactly the chunks the window, the budget, the disk and the link allow |
| FileTransferService.Service.ReplyAndOffer | client/src/transfers/file_transfer_service.cpp:405-409 | Owed replies and the repeated offer of a tick |
| FileTransferService.Service.PumpEntry | client/src/transfers/file_transfer_service.cpp:382-434 | One tick of one entry |
| FileTransferService.Service.PumpTick | client/src/transfers/file_transfer_service.cpp:373-434 | One timer tick of the endpoint |
| TransferProofs.ApplyKeeps | client/src/transfers/file_transfer_service.cpp:214-371 | Every step of either endpoint or the link keeps the transfer invariant |
| TransferProofs.RunKeeps | client/src/transfers/file_transfer_service.cpp:214-434 | So does every run |
| TransferTheorems.ReceivedIsPrefix | client/src/transfers/file_transfer_service.cpp:343-370 | The receiver's file is the source's prefix of length position, and a saved file is the source |
| TransferTheorems.CompleteMeansSaved | client/src/transfers/file_transfer_service.cpp:329-341 | Either end shows complete only if the receiver has the whole file on disk, through resumes, repeated offers and dismissals |
| TransferTheorems.InFlightIsSlice | client/src/transfers/file_transfer_service.cpp:404-424 | Contiguous truthful chunks spell one stretch of the source |
| TransferTheorems.WindowIsExact | client/src/transfers/file_transfer_service.cpp:404-424 | Chunks in flight are exactly the bytes from the receiver's position to sent; acked <= received <= sent <= size; the window stays below 272 KiB |
| TransferTheorems.NeverOutOfOrder | client/src/transfers/file_transfer_service.cpp:343-370 | While no dismissed entry was forgotten and the disk works, no message makes a receiving transfer fail |
| TransferTheorems.ResumeIsExact | client/src/transfers/file_transfer_service.cpp:317-325 | A resumed sender starts at the receiver's position with nothing in flight |
| TransferTheorems.HonestFinishCommits | client/src/transfers/file_transfer_service.cpp:357-370 | While no dismissed entry was forgotten, a Finish from the sender passes the size and digest checks and is answered with Complete |
| TransferTheorems.FailsIff | client/src/transfers/file_transfer_service.cpp:342-370 | Remembered or forgotten, with a working disk the next message fails a receiving entry exactly if it is a chunk at another offset, or a Finish before the end |
| TransferForgotten.ForgettingBreaksTheOrder | client/src/transfers/file_transfer_service.cpp:202-212 | For every file of more than one chunk a run exists in which the forgotten entry lets a chunk break the order |
| TransferLateFinish.ForgettingFailsTheFinish | client/src/transfers/file_transfer_service.cpp:357-370 | For every file of one chunk a run exists in which every byte is acknowledged and the honest Finish fails |
| TransferLateFinish.CanFailIffNotEmpty | client/src/transfers/file_transfer_service.cpp:202-212 | A file has a failing run, with every disk working, exactly if it is not empty |
| SignalingRouter.Router.Remember | client/src/app/signaling_router.cpp:22-32 | A packet is new once, and remembered, in a table that is emptied when it is full |
| SignalingRouter.Router.Observe | client/src/app/signaling_router.cpp:38-53 | A route is learned when shorter, refreshed when it uses the same connection |
| SignalingRouter.Router.RememberHop | client/src/app/signaling_router.cpp:86-92 | A request's reverse hop is the connection it came from |
| SignalingRouter.Router.Forget | client/src/app/signaling_router.cpp:55-70 | A lost connection takes its routes and reverse hops with it |
| SignalingRouter.Router.DropExpired | client/src/app/signaling_router.cpp:103-126 | Entries older than two minutes go, others stay |
| PacketHandlers.Session.BroadcastService | client/src/app/network_session.cpp:648-654 | One copy on every open connection but one, in order |
| PacketHandlers.Session.HandlePeerAnnounce | client/src/app/network_session_packets.cpp:193-213 | First receipts are learned from and forwarded while the TTL lasts; others are dropped |
| PacketHandlers.Session.HandleRouteRequest | client/src/app/network_session_packets.cpp:259-279 | Likewise with a reverse hop; the target answers instead of forwarding |
| PacketHandlers.Session.LearnRequest | client/src/app/network_session_packets.cpp:261-266 | A request teaches the route to its sender and its reverse hop, on first sight only |
| PacketHandlers.Session.HandleRouteReply | client/src/app/network_session_packets.cpp:281-301 | A reply is passed to the reverse hop until it is home |
| PacketHandlers.Session.SendReply | client/src/app/network_session_packets.cpp:267-274 | The answer starts with the full TTL and is remembered by its sender |
| FloodProofs.PathsAreSimple | client/src/app/network_session_packets.cpp:193-213 | First-receipt paths never repeat a member, so they are shorter than the TTL |
| FloodProofs.GrowStep | client/src/app/network_session_packets.cpp:193-213 | A first receipt extends the tree of first receipts and keeps the flood's invariant |
| FloodTheorems.StepKeeps | client/src/app/network_session_packets.cpp:193-301 | Every delivery, in any order, keeps flood, reply, reverse hops and routes consistent |
| FloodTheorems.FloodReachesAll | client/src/app/network_session.cpp:584-589 | When nothing is in flight, exactly the members connected to the origin have the packet: the TTL never runs out first |
| FloodTheorems.EachLinkOnce | client/src/app/signaling_router.cpp:22-32 | No directed connection carries the flood twice |
| FloodTheorems.RouteIsFound | client/src/app/network_session_packets.cpp:259-301 | A connected target's reply gets home, and every member on its path that knew no route has the path's next hop and length |
| FloodTheorems.HopsAreReal | client/src/app/signaling_router.cpp:38-53 | Whoever knew no route to the sender gets the hop count of the first-receipt path, which is simple |
| PacketHandlers.Session.HandlePeerSnapshot | client/src/app/network_session_packets.cpp:171-191 | A peer list teaches a route of two hops to every known peer without an open link of its own |
| PacketHandlers.Session.RouteLinkSignaling | client/src/app/network_session_packets.cpp:302-325 | An offer or answer for a link teaches two hops to its sender on first sight, and goes on to all other links while the TTL lasts, unless it is for this member |
| FloodTraffic.FloodAmidTraffic | client/src/app/network_session_packets.cpp:193-301 | The same with other floods, replies, peer lists, link offers and new links in any mixture: at rest exactly the connected members have the packet, and a found target's reply is home |
| FloodTraffic.OnceAmidTraffic | client/src/app/signaling_router.cpp:22-32 | Nor does any directed connection carry the flood twice in such a mixture |
| RouteSources.SnapshotRealIff | client/src/app/network_session_packets.cpp:171-191 | A peer list keeps every hop count the length of a real walk exactly if each peer it gives a new route is a neighbour of its sender |
| RouteSources.SignalRealIff | client/src/app/network_session_packets.cpp:302-325 | The same for an offer or answer and its sender |
| RouteSources.LineOfFour | client/src/app/network_session_packets.cpp:171-191 | On a line of four a list gives the first member two hops to the last, where there are three, and a later announcement leaves it so |
| RouteSources.HopCountsStayReal | client/src/app/signaling_router.cpp:38-53 | If every stored hop count was the length of a real walk over its connection, all are at every moment of flood, reply and any other traffic that is true: announcements by real walks, lists and offers under the two conditions above |
| FloodTermination.DeliveryLowersWeight | client/src/app/network_session_packets.cpp:193-301 | From any state a delivery lowers a measure of the TTLs in flight, whatever the duplicate filters forget |
| Rooms.RoomRegistry.ExpireInvitations | server/src/room_registry.cpp:228-238 | Exactly the invitations whose time has come are gone |
| Rooms.RoomRegistry.CreateInvitation | server/src/room_registry.cpp:55-81 | A member gets a token for its own room unless sixteen are out, after expiry |
| Rooms.RoomRegistry.CreateRoom | server/src/room_registry.cpp:97-114 | A roomless session founds a room while there are fewer than sixteen |
| Rooms.RoomRegistry.JoinRoom | server/src/room_registry.cpp:117-151 | A token opens its room once; the newcomer is told the members, each member is told of it |
| Rooms.RoomRegistry.LeaveAs | server/src/room_registry.cpp:193-222 | Leaving removes membership and own tokens, tells those who stay, and erases an empty room |
| Rooms.RoomRegistry.LeaveAsked | server/src/room_registry.cpp:164-176 | The leave request with its errors |
| Rooms.RoomRegistry.InviteAsked | server/src/room_registry.cpp:153-162 | The invitation request with its errors |
| Rooms.RoomRegistry.SendSignal | server/src/room_registry.cpp:177-189 | A signal goes to another member of the room, or an error says why not |
| Rooms.RoomRegistry.HandleRequest | server/src/room_registry.cpp:83-191 | Expiry, then the request's own outcome, replies first and notices in any order |
| RoomProofs.HandleKeeps | server/src/room_registry.cpp:83-191 | Sessions and rooms stay inverse indexes, rooms hold 1 to 6, issuers are members, limits hold |
| RoomProofs.LeaveKeeps | server/src/room_registry.cpp:193-222 | The same when a member leaves or disconnects |
| RoomProofs.LeaveTokens | server/src/room_registry.cpp:206-220 | A room that is erased has no token left but those of its last member |
| RoomProofs.JoinThenLeave | server/src/room_registry.cpp:117-222 | Joining and leaving again restores the registry but for the token used up |
| RoomProofs.JoinIntroduces | server/src/room_registry.cpp:133-145 | The newcomer is told of exactly those that are told of it, at most five |
| RoomProofs.EveryInvitationIsAccounted | server/src/room_registry.cpp:55-238 | Over every run issued == consumed + outstanding + expired + revoked |
| PresenceService.PresenceRegistry.CloseKnocks | server/src/presence_registry.cpp:197-205 | Unanswerable knocks go and both sides are told why, each once |
| PresenceService.PresenceRegistry.CloseInvitations | server/src/presence_registry.cpp:206-224 | The same for contact invitations |
| PresenceService.PresenceRegistry.ForgetInvites | server/src/presence_registry.cpp:225-233 | Rate-limit entries last ten seconds |
| PresenceService.PresenceRegistry.MaintainInvitations | server/src/presence_registry.cpp:195-235 | The whole maintenance pass |
| PresenceService.PresenceRegistry.UpdateSnapshots | server/src/presence_registry.cpp:237-257 | Every cached snapshot becomes the recomputed one; exactly the sessions whose snapshot changed are sent it |
| PresenceService.PresenceRegistry.Publish | server/src/presence_registry.cpp:41-59 | Publishing binds the identity, then tidies invitations and snapshots |
| PresenceService.PresenceRegistry.LeaveMesh | server/src/presence_registry.cpp:61-74 | Leaving a mesh tells its other members |
| PresenceService.PresenceRegistry.SendDirect | server/src/presence_registry.cpp:75-81 | A direct message needs mutual acquaintance |
| PresenceService.PresenceRegistry.RelayMesh | server/src/presence_registry.cpp:82-91 | A relay needs both in the mesh |
| PresenceService.PresenceRegistry.RequestKnock | server/src/presence_registry.cpp:92-111 | When a knock is accepted for delivery and when refused |
| PresenceService.PresenceRegistry.RespondToKnock | server/src/presence_registry.cpp:112-137 | How a knock is answered |
| PresenceService.PresenceRegistry.Invite | server/src/presence_registry.cpp:138-164 | When a contact invitation goes out and when refused |
| PresenceService.PresenceRegistry.RespondToContact | server/src/presence_registry.cpp:165-193 | How a contact invitation is answered |
| PresenceService.PresenceRegistry.HandleRequest | server/src/presence_registry.cpp:31-193 | Every presence request: new tables, room tokens and deliveries |
| PresenceService.PresenceRegistry.Disconnect | server/src/presence_registry.cpp:259-271 | A lost session takes its profile, and what no longer stands |
| PresenceProofs.MaintainRestores | server/src/presence_registry.cpp:195-235 | Whatever happened before, maintenance leaves only answerable invitations and knocks |
| PresenceProofs.HandlePresenceKeeps | server/src/presence_registry.cpp:31-193 | Every request keeps: inverse identity index, answerable invitations and knocks, one each, limits, current snapshots |
| PresenceProofs.ContactAcceptEnds | server/src/presence_registry.cpp:170-192 | Accepting an unexpired invitation ends accepted exactly when the room has space and a token can be issued, else unavailable |
| PresenceProofs.KnockAcceptEnds | server/src/presence_registry.cpp:116-136 | The same for a knock and the room its host names |
| PresenceProofs.AcceptedCanEnter | server/src/presence_registry.cpp:181-186 | The token that comes with an acceptance opens the room |
| ServerProofs.StepKeeps | server/src/signaling_server.cpp:217-226 | Every server step keeps the invariant across clients, rooms and presence |
| ServerProofs.PendingStaysAnswerable | server/src/signaling_server.cpp:217-226 | In every reachable state a pending invitation has mutual acquaintances, its sender in the named room and an idle roomless recipient; a pending knock likewise |
| ServerProofs.PublishNeverRefused | server/src/presence_registry.cpp:43-46 | An authenticated client publishing its own identity is never refused |
| SnapshotDelivery.RequestDelivers | server/src/presence_registry.cpp:237-257 | After a request the last snapshot queued for each session is the one its profile caches |
| SnapshotDelivery.ScreensAreCurrent | server/src/presence_registry.cpp:41-74 | In every run the last snapshot queued for a session is the one all current profiles give |
| Signaling.SignalingServer.Deliver | server/src/signaling_server.cpp:359-387 | The re-entrant loop ends, sends batches in the order they were queued, and leaves the state machine's state |
| Signaling.SignalingServer.DeliverBatch | server/src/signaling_server.cpp:371-384 | A batch goes out whole and in order before anything queued meanwhile; confirmations of failed relays become errors |
| Signaling.SignalingServer.Send | server/src/signaling_server.cpp:332-357 | A send that closes the client leaves the server consistent |
| Signaling.SignalingServer.RemoveClient | server/src/signaling_server.cpp:398-415 | A removed client leaves both registries in one step |
| Signaling.SignalingServer.Receive | server/src/signaling_server.cpp:171-227 | An admitted request is taken as one step of the state machine, followed at most by lost clients |
| Signaling.SignalingServer.Authenticate | server/src/signaling_server.cpp:276-329 | A session gets an identity once, if proved and held by nobody else, and is sent the confirmation, which may lose it; otherwise it is told why and closed |
| Signaling.SignalingServer.RegisterClient | server/src/signaling_server.cpp:125-169 | Between deliveries a new socket is served while there are fewer than 128, closing ones included, and is sent its challenge, which may lose it |
| Signaling.SignalingServer.MaintainConnections | server/src/signaling_server.cpp:429-460 | A tick tidies both registries and closes whoever is overdue |
| Signaling.ConfirmedIffRelayed | server/src/signaling_server.cpp:375-383 | A relay is confirmed to its sender exactly when it was queued for its recipient |
| Signaling.AtRest | server/src/signaling_server.cpp:359-387 | Whatever sends failed, a server at rest meets the invariant and has tried every batch in order, each rendered with its failed relays |
| SnapshotArrival.SnapshotsArrive | server/src/signaling_server.cpp:332-387 | Through the delivery loop with failing sends: for every client with a profile to which no send has failed since it joined, the last snapshot that went out is the one all current profiles give |
| RingArithmetic.MaskIsModulo | client/src/audio/rtp_audio_engine.cpp:83 | Masking with a power of two less one is the remainder |
| RingArithmetic.PowersOfTwo | client/src/audio/rtp_audio_engine.cpp:106 | The static assertion holds exactly for powers of two |
| RingArithmetic.CellOf | client/src/audio/rtp_audio_engine.cpp:83-94 | Index wrap-around at the machine word does not change the cell |
| SpscRingRuns.PoppedIsPrefix | client/src/audio/rtp_audio_engine.cpp:78-99 | In every interleaving what was popped is a prefix of what was pushed, and the rest is in its cells |
| SpscRingRuns.UnreadIsSafe | client/src/audio/rtp_audio_engine.cpp:82-85 | No access of the producer touches an unread cell |
| SpscRingRuns.PopReturnsNext | client/src/audio/rtp_audio_engine.cpp:89-99 | A pop hands over the next stretch of what was pushed |
| SpscRingRuns.ProducerCount | client/src/audio/rtp_audio_engine.cpp:68-76 | The producer's count stays within capacity and overlooks nothing unread |
| SpscRingRuns.ConsumerCount | client/src/audio/rtp_audio_engine.cpp:68-72 | The consumer's count is exact and within capacity |
| SpscRingRuns.WholePush | client/src/audio/rtp_audio_engine.cpp:78-87 | An uninterrupted push appends as many values as fit |
| SpscRings.SpscRing.Push | client/src/audio/rtp_audio_engine.cpp:78-87 | The contents grow by the values that fit, over wrap-around |
| SpscRings.SpscRing.CopyOut | client/src/audio/rtp_audio_engine.cpp:93-95 | The copying loop reads the oldest values, over wrap-around, and frees nothing |
| SpscRings.SpscRing.Pop | client/src/audio/rtp_audio_engine.cpp:89-99 | The oldest values leave, in order |
| SpscRings.SpscRing.Available | client/src/audio/rtp_audio_engine.cpp:68-72 | The count is the number of values held |
| SpscRings.SpscRing.FreeSpace | client/src/audio/rtp_audio_engine.cpp:74-76 | Count and free space make the capacity |
| RtpUnwrap.AlwaysCongruent | client/src/audio/remote_audio_stream.cpp:39-69 | Every extended counter is the raw one up to whole cycles |
| RtpUnwrap.ExactIffNear | client/src/audio/remote_audio_stream.cpp:39-69 | Extended values are the true ones plus a constant exactly when no packet strays half a cycle from the newest |
| JitterBuffer.RemoteAudioStream.UnwrapSequence | client/src/audio/remote_audio_stream.cpp:55-69 | One 16-bit step of the unwrapping |
| JitterBuffer.RemoteAudioStream.UnwrapTimestamp | client/src/audio/remote_audio_stream.cpp:39-53 | One 32-bit step |
| JitterBuffer.RemoteAudioStream.ResetStream | client/src/audio/remote_audio_stream.cpp:71-85 | A new source starts empty but keeps target and totals |
| JitterBuffer.RemoteAudioStream.EnqueuePacket | client/src/audio/remote_audio_stream.cpp:87-134 | When a packet is taken, and what it changes |
| JitterBuffer.RemoteAudioStream.EvictOldest | client/src/audio/remote_audio_stream.cpp:129-132 | The smallest positions go while more than 64 are held |
| JitterBuffer.RemoteAudioStream.DiscardObsolete | client/src/audio/remote_audio_stream.cpp:150-155 | Exactly the positions before the expected one go |
| JitterBuffer.RemoteAudioStream.RenderFrame | client/src/audio/remote_audio_stream.cpp:157-214 | One frame: wait, play or conceal |
| JitterBuffer.RemoteAudioStream.AdaptBuffer | client/src/audio/remote_audio_stream.cpp:216-227 | The target rises on loss and falls after 500 stable frames |
| JitterBuffer.RemoteAudioStream.Stats | client/src/audio/remote_audio_stream.cpp:237-253 | The smoothed loss of the window |
| JitterProofs.NothingObsolete | client/src/audio/remote_audio_stream.cpp:150-172 | Once playout started every held packet is at or after the expected position |
| JitterProofs.NothingIsLost | client/src/audio/remote_audio_stream.cpp:104-132 | Taken == played + held + evicted + cleared; at most 64 held; the target stays in 2 to 8 |
| JitterProofs.PlaysInOrder | client/src/audio/remote_audio_stream.cpp:177-211 | Each position is rendered once, in order, with the packet taken for it |
| JitterProofs.ConcealedOnlyWithNewer | client/src/audio/remote_audio_stream.cpp:194-209 | Concealment only when the packet is missing and a newer one is held |
| JitterProofs.LateIsUnheard | client/src/audio/remote_audio_stream.cpp:100-103 | However many frames and reports follow, a packet for a rendered position is not heard and changes nothing that is |
| JitterLateness.LateChangesNothing | client/src/audio/remote_audio_stream.cpp:87-134 | Whatever follows, other packets included, a packet for a rendered position whose timestamp is not ahead of the newest leaves every rendered frame as it would have been |
| JitterProofs.ReportKeeps | client/src/audio/remote_audio_stream.cpp:245-252 | The reported loss is between 0 and 100 percent |
| SdpStreams.PackDescription | client/src/network/sdp_description_codec.cpp:396-446 | Packing takes the fields from the texts and writes role, credentials, fingerprint and candidates, or refuses |
| SdpStreams.UnpackDescription | client/src/network/sdp_description_codec.cpp:448-513 | Unpacking reads them back, prints them as texts, refuses trailing bytes and what the SDP library does not take |
| SdpStreams.DataStream.WriteCandidate | client/src/network/sdp_description_codec.cpp:152-257 | The text of a candidate is split at blanks, checked, and written as its fields, or refused |
| SdpStreams.DataStream.ReadIceCandidate | client/src/network/sdp_description_codec.cpp:259-369 | One candidate read with the checks the code makes, and no more |
| SdpStreams.DataStream.ReadCandidateText | client/src/network/sdp_description_codec.cpp:259-369 | The candidate that was read, as the text the chained substitutions make of it |
| SdpStreams.DataStream.ReadTextList | client/src/network/sdp_description_codec.cpp:496-502 | The loop reads and prints every candidate or fails with the first that fails |
| SdpStreams.DataStream.WriteBytes | client/src/network/sdp_description_codec.cpp:38-44 | A credential of 1 to max bytes behind its length |
| SdpStreams.DataStream.ReadCredential | client/src/network/sdp_description_codec.cpp:46-54 | The same read back |
| CandidateTextProofs.TextReadBack | client/src/network/sdp_description_codec.cpp:353-359 | The text built for a candidate is read back as the candidate exactly if no marker in its foundation or scope is replaced and the scope survives UTF-8, the split and the percent sign |
| SdpTextProofs.UnpackPacked | client/src/network/sdp_description_codec.cpp:284-293 | Unpacking what was packed says the same as the description packed exactly when every foundation is visible and every candidate plain; then it prints the fields, and with an invisible foundation it refuses |
| SdpTextProofs.FoundationOverwritten | client/src/network/sdp_description_codec.cpp:353-359 | With an IPv4 address, a foundation of %2 is read back as the digits of the priority |
| SdpTextProofs.ScopeOverwritten | client/src/network/sdp_description_codec.cpp:353-359 | A scope of 4 leaves a text whose address ends in the port and has no scope |
| SdpTextProofs.ScopeReplacedByText | client/src/network/sdp_description_codec.cpp:345 | A scope of the byte 0xFF is read back as the three bytes of the replacement character |
| SdpTextProofs.AcceptedYetChanged | client/src/network/sdp_description_codec.cpp:353-359 | Every packed description with visible foundations and a candidate that is not plain, once accepted, packs to other bytes though nothing is cut |
| Utf8.WholeBack | client/src/network/sdp_description_codec.cpp:345 | Bytes survive reading and writing as text exactly if they are well-formed UTF-8 with no byte order mark before them |
| SdpTextProofs.PackUnpacked | client/src/network/sdp_description_codec.cpp:496-505 | What unpack accepts packs to itself exactly if it is not cut inside its last IPv4 address, its candidates are plain and its credentials are well-formed UTF-8 |
| SdpCutProofs.CutIffNotWhole | client/src/network/sdp_description_codec.cpp:319-323 | A read comes up short in an accepted payload exactly if the payload is cut there |
| SdpCutProofs.CutShortAccepted | client/src/network/sdp_description_codec.cpp:319-323 | Every packed description cut inside its last IPv4 address is accepted with a zero address |
| SdpTextProofs.AccentRefused | client/src/network/sdp_description_codec.cpp:284-293 | A description with an accented letter for a foundation is packed, and refused when it is unpacked |
| SdpCutProofs.PackedSize | client/src/network/sdp_description_codec.cpp:20-25 | A packed description has at most 31560 bytes, below the outer limit |
| FingerprintText.TextPacks | client/src/network/sdp_description_codec.cpp:137-150 | The fingerprint text written for a digest is packed to that digest |
| InvitationFrames.DecodeEncoded | client/src/signaling/invitation_codec.cpp:52-116 | Decoding an encoded invitation says the same, mesh for offers only, exactly when its candidates are visible and plain |
| InvitationFrames.EncodeDecoded | client/src/signaling/invitation_codec.cpp:80-116 | An accepted frame encodes to itself exactly if the description in it is not cut short, its candidates are plain and its credentials well-formed UTF-8 |
| RoomRecovery.Recovery.Scan | client/src/app/network_session_recovery.cpp:60-75 | In any iteration order: the smallest room, the smallest of its holders, the smallest client |
| RoomRecovery.Recovery.Recover | client/src/app/network_session_recovery.cpp:44-126 | What one recovery tick does with that choice |
| RoomRecovery.Recovery.ForgetSilent | client/src/app/network_session_recovery.cpp:48-56 | Peers silent for fifteen seconds or unlinked are forgotten |
| RoomRecovery.Recovery.HandleInvitation | client/src/app/network_session_recovery.cpp:146-173 | Only the invitation that is waited for starts a join |
| RoomRecovery.Recovery.HandleResponse | client/src/app/network_session_recovery.cpp:214-237 | The server's answer ends the operation; a join enters only the room that was asked for |
| RecoveryRefinement.TickRefines | client/src/app/network_session_recovery.cpp:44-126 | One recovery tick of a session with accurate views, its request sent or refused, is one decision of the member it stands for, given up again if refused |
| RecoveryRefinement.InvitationRefines | client/src/app/network_session_recovery.cpp:151-173 | Taking up an invitation is no step of that member, or its giving up if the join cannot be sent |
| RecoveryRefinement.AnswerRefines | client/src/app/network_session_recovery.cpp:214-237 | The server's answer is the end of its operation |
| RecoveryRefinement.StepRefines | client/src/app/network_session_recovery.cpp:44-237 | One event at one client is one step of the whole mesh, and leaves every other client and member as they were |
| RecoveryRefinement.OneClientCreates | client/src/app/network_session_recovery.cpp:109-117 | In every run of the clients themselves, requests refused or not, at most one is creating a room |
| RecoveryProofs.SameChoice | client/src/app/network_session_recovery.cpp:60-75 | With accurate views everyone chooses the same room and leader |
| RecoveryProofs.SmallestIsKept | client/src/app/network_session_recovery.cpp:76-80 | Nobody leaves the smallest room |
| RecoveryProofs.StepKeeps | client/src/app/network_session_recovery.cpp:86-117 | Joins aim at the smallest room; creating happens only with no room, by the leader |
| RecoveryProofs.OneCreator | client/src/app/network_session_recovery.cpp:109-117 | At most one member is creating a room |
| RecoveryProofs.EveryStepFalls | client/src/app/network_session_recovery.cpp:86-117 | Every leave, join or creation lowers a measure |
| RecoveryProofs.FewSteps | client/src/app/network_session_recovery.cpp:214-237 | So only boundedly many steps change anything, however they are scheduled |
| RecoveryProofs.OneRoomAtRest | client/src/app/network_session_recovery.cpp:60-117 | When nothing more happens all members are in the smallest room |
| ScreenShare.FrameBack | client/src/sharing/screen_share_service.cpp:40-55 | Every message is read back as it was sent |
| ScreenShare.SendImage | client/src/sharing/screen_share_service.cpp:320-326 | The sending loop makes a prefix of the image's parts, at most 88 |
| ScreenShare.ScreenShareService.TakeVideo | client/src/sharing/screen_share_service.cpp:395-433 | One part: refused, stored, or completing an image |
| ScreenShare.ScreenShareService.FinishDecoding | client/src/sharing/screen_share_service.cpp:434-440 | A decoded image is shown only for the stream still watched, and only forwards |
| ScreenShare.ScreenShareService.ReceiveAnnounce | client/src/sharing/screen_share_service.cpp:365-394 | Who is watched after an announcement |
| ScreenShare.ScreenShareService.ReceiveStop | client/src/sharing/screen_share_service.cpp:360-364 | The stream is remembered as stopped, and cleared if it was watched |
| ScreenShare.ScreenShareService.Retire | client/src/sharing/screen_share_service.cpp:92-99 | A stopped stream is remembered in place of the oldest of 128 |
| ScreenShare.ScreenShareService.Clear | client/src/sharing/screen_share_service.cpp:238-251 | The remote stream is dropped with its pieces, a running decoder is not |
| ScreenShareProofs.ReceiveKeeps | client/src/sharing/screen_share_service.cpp:408-423 | A completed assembly is one sent image, byte for byte |
| ScreenShareProofs.OnlySentImages | client/src/sharing/screen_share_service.cpp:350-440 | Under any loss, repetition and reordering, what is decoded and whatever was ever shown are images that were sent |
| ScreenShareProofs.StoppedStaysAway | client/src/sharing/screen_share_service.cpp:353-364 | In every run a stream is stopped exactly while it is one of the last 128 that were, and is then not watched |
| ScreenReplays.PicturesGoBack | client/src/sharing/screen_share_service.cpp:238-251 | For every stream and two images: number 2 is shown, the link lost, the stream announced again, and number 1 shown |
| ScreenReplays.NeverBackIffStopped | client/src/sharing/screen_share_service.cpp:238-251 | In every reachable state: all continuations show only newer pictures of a stream than its last exactly if it is stopped |
| ScreenReplays.NeverBackLinkedIff | client/src/sharing/screen_share_service.cpp:408-439 | The same for continuations without a lost link: exactly if it is stopped, or watched and caught up with that picture or past it |
| ScreenReplays.ShownIsAhead | client/src/sharing/screen_share_service.cpp:434-440 | After a picture is shown, all later ones of its stream are newer as long as the link lasts |
| ScreenShareProofs.JoinBack | client/src/sharing/screen_share_service.cpp:321-326 | The parts of an image joined in order are the image |
| ScreenShareProofs.PartLimit | client/src/sharing/screen_share_service.cpp:408 | One MiB takes at most 88 parts |
| ScreenOwners.SmallestShares | client/src/sharing/screen_share_service.cpp:367-376 | Whatever a member hears of simultaneous starts, in whatever order, the smallest announced identity is watched unless its own is smaller |
| ScreenOwners.OneSharerRemains | client/src/sharing/screen_share_service.cpp:360-376 | Among all members, with announcements and stops lost, repeated and late, lost links and new starts: the smallest member that ever began goes on sharing, and all who have heard it and not lost the link since share nothing and watch it |
| Connections.ConnectionManager.CreateAttempt | client/src/app/connection_manager.cpp:91-114 | An attempt is created under a free identifier only |
| Connections.ConnectionManager.StartAttempt | client/src/app/connection_manager.cpp:116-148 | Starting an attempt starts its deadline; a transport that throws ends it |
| Connections.ConnectionManager.MarkHello | client/src/app/connection_manager.cpp:234-245 | A proved hello may open the link |
| Connections.ConnectionManager.DeadlineFired | client/src/app/connection_manager.cpp:618-624 | A deadline ends the current, unopened link of its generation and nothing else |
| Connections.ConnectionManager.GraceFired | client/src/app/connection_manager.cpp:648-656 | A grace period ends the link that is suspect under its generation |
| Connections.ConnectionManager.ApplyAnswer | client/src/app/connection_manager.cpp:150-178 | One answer per attempt, and what a refused one leads to |
| Connections.ConnectionManager.DescriptionProduced | client/src/app/connection_manager.cpp:433-448 | The local description restarts the deadline, once |
| Connections.ConnectionManager.UpdateReadiness | client/src/app/connection_manager.cpp:571-584 | Both channels open: wait for the hello under a new deadline |
| Connections.ConnectionManager.UpdateHandshake | client/src/app/connection_manager.cpp:586-596 | Hello and channels: the link opens and its deadline is gone |
| Connections.ConnectionManager.TransportState | client/src/app/connection_manager.cpp:459-489 | What each transport state does to a link |
| Connections.ConnectionManager.TransportSignal | client/src/app/connection_manager.cpp:430-546 | Signals of a superseded transport are ignored |
| Connections.ConnectionManager.StartTimer | client/src/app/connection_manager.cpp:607-626 | A new deadline supersedes the one before |
| Connections.ConnectionManager.MakeSuspect | client/src/app/connection_manager.cpp:641-657 | Only an open link becomes suspect, under a new generation |
| Connections.ConnectionManager.RemoveLink | client/src/app/connection_manager.cpp:673-693 | The link is gone and recorded |
| ConnectionProofs.StepKeeps | client/src/app/connection_manager.cpp:91-693 | Every event keeps links, serials and timers consistent |
| ConnectionProofs.NoAttemptHangs | client/src/app/connection_manager.cpp:607-626 | A started link that is not open has exactly one timer that can end it, and it does |
| ConnectionProofs.OnlyTheNewestDeadline | client/src/app/connection_manager.cpp:618-624 | A deadline ends a link exactly when it is the newest one of a link not yet open |
| ConnectionProofs.NoSuspicionHangs | client/src/app/connection_manager.cpp:641-657 | A suspect link has a grace timer that will end it |
| ConnectionProofs.RecoveredIsSpared | client/src/app/connection_manager.cpp:646-656 | A grace timer ends a link only if it was suspect without a break |
| ConnectionProofs.EndsOnce | client/src/app/connection_manager.cpp:673-693 | Each attempt ends at most once |
| AudioTransport.AudioTransportWorker.RegisterConnection | client/src/network/audio_transport_worker.cpp:191-198 | A route begins closed and without a peer; another endpoint changes nothing else |
| AudioTransport.AudioTransportWorker.UpdateConnection | client/src/network/audio_transport_worker.cpp:200-222 | Opening a route makes it its peer's newest and drops what older routes queued; closing drops its own |
| AudioTransport.AudioTransportWorker.UnregisterConnection | client/src/network/audio_transport_worker.cpp:224-232 | A route goes with its queued frames |
| AudioTransport.AudioTransportWorker.SetIncomingSink | client/src/network/audio_transport_worker.cpp:183-189 | Without a sink nothing waits |
| AudioTransport.AudioTransportWorker.SetReceiveEnabled | client/src/network/audio_transport_worker.cpp:234-241 | Switching receiving off empties its queue |
| AudioTransport.AudioTransportWorker.SetTransmitEnabled | client/src/network/audio_transport_worker.cpp:243-250 | Switching transmitting off empties its queue |
| AudioTransport.AudioTransportWorker.ClearOutgoing | client/src/network/audio_transport_worker.cpp:252-255 | The outgoing queue is emptied |
| AudioTransport.AudioTransportWorker.Enqueue | client/src/network/audio_transport_worker.cpp:297-311 | Speech waits in place of the oldest of two frames |
| AudioTransport.AudioTransportWorker.Stop | client/src/network/audio_transport_worker.cpp:321-339 | Stopping empties queues and routes for good |
| AudioTransport.AudioTransportWorker.EnqueueIncoming | client/src/network/audio_transport_worker.cpp:257-295 | A frame is taken over the newest open route only, in place of the oldest of sixteen |
| AudioTransport.AudioTransportWorker.SelectRoutes | client/src/network/audio_transport_worker.cpp:69-82 | In any iteration order: exactly one connection for each peer with a live route, the one activated last |
| AudioTransport.AudioTransportWorker.TakeBatch | client/src/network/audio_transport_worker.cpp:59-89 | Both queues are taken whole, with the newest route of every reachable peer, each peer once |
| AudioTransport.AudioTransportWorker.Transmit | client/src/network/audio_transport_worker.cpp:103-112 | Over every target exactly the batch goes out, in order; over no other connection anything |
| AudioTransport.AudioTransportWorker.HandOver | client/src/network/audio_transport_worker.cpp:91-101 | The batch is handed to a living sink while receiving is on, else dropped |
| AudioRouteProofs.NewestIffNotRelabelled | client/src/network/audio_transport_worker.cpp:200-295 | A step leaves only frames of their peers' newest routes queued exactly if it gives no busy connection another peer |
| AudioRouteProofs.OneStreamEach | client/src/network/audio_transport_worker.cpp:200-295 | In a run of the worker without that, queued frames of one peer all came over one connection |
| AudioHandshakes.OneStreamEachPeer | client/src/app/network_session_packets.cpp:111-168 | With the handshake that names the peers, in every run: queued frames of one peer all came over one connection, its newest |
| AudioRouteProofs.RelabellingMixes | client/src/network/audio_transport_worker.cpp:210-220 | With it, frames of one peer from two connections can be queued together |
| AudioRouteProofs.HeardInOrder | client/src/network/audio_transport_worker.cpp:53-114 | In every interleaving frames reach the engine at most once and in the order they were taken; the queues keep their bounds |
| TextChannels.TextLane.SendText | client/src/network/peer_connection.cpp:791-822 | A text is sent at once, queued behind others, or refused |
| TextChannels.TextLane.FlushTextQueue | client/src/network/peer_connection.cpp:824-845 | The front of the queue goes out until the channel is full, fails or the queue is empty |
| TextChannels.PromisesAreKept | client/src/network/peer_connection.cpp:791-845 | Over every run what was promised is what was sent followed by the queue, whose byte counter is exact |
| Messaging.MessagingService.CreateMessage | client/src/app/messaging_service.cpp:27-62 | A new message is stamped with the next clock, remembered, and tracked for the peers that should get it |
| Messaging.MessagingService.ReceiveMessage | client/src/app/messaging_service.cpp:64-84 | A new message moves the clock past its own; a duplicate does not |
| Messaging.MessagingService.RememberMessage | client/src/app/messaging_service.cpp:95-105 | The newest 4096 identifiers are remembered |
| Messaging.DeliveryTracker.Track | client/src/messaging/delivery_tracker.cpp:16-29 | Table and queue stay in step, and the oldest message makes room |
| Messaging.DeliveryTracker.Acknowledge | client/src/messaging/delivery_tracker.cpp:31-39 | Each expected peer counts once |
| Messaging.DeliveryTracker.Counts | client/src/messaging/delivery_tracker.cpp:41-49 | Never more delivered than expected |
| MessagingProofs.DuplicateIff | client/src/app/messaging_service.cpp:73-105 | In every run a member takes a message for a duplicate exactly when its identifier is one of the last 4096 different ones of the messages written or shown there |
| MessagingProofs.CausesComeFirst | client/src/app/messaging_service.cpp:48-81 | Among any members a message written with knowledge of another, however indirect, has the greater clock |
| Transcripts.BuildTranscript | libs/security/src/security.cpp:50-58 | The loop writes the domain, a NUL and each field behind its decimal length |
| Transcripts.TranscriptParses | libs/security/src/security.cpp:50-58 | A transcript determines its NUL-free domain and its fields |
| Transcripts.TranscriptsDiffer | libs/security/src/security.cpp:50-58 | Two transcripts are equal exactly when domains and field lists are |
| Transcripts.SameDomain | libs/security/src/security.cpp:50-58 | Under one domain of any bytes the field list is unambiguous |
| Transcripts.NulDomainsCollide | libs/security/src/security.cpp:50-58 | Domains with a NUL can collide |

## Left out

- Several live links between the same two peers: the transfer model has one link at a time, whose ends open and close separately.
- Preview messages of a file transfer, and how several transfers share the budgets of one timer tick.
- Changes of the source file while it is sent, and collisions of the digest, which is an arbitrary function here.
- TransferTheorems.NeverOutOfOrder: promised while the receiver's dismissed entry is remembered; `TransferLateFinish.CanFailIffNotEmpty` shows for which files that is needed.
- TransferTheorems.HonestFinishCommits: likewise.
- FloodTheorems.FloodReachesAll: on a fixed graph, with every packet within the two-minute lifetime and room in the duplicate filters; `FloodTermination` needs neither.
- FloodTheorems.RouteIsFound: for members that knew no route before; what others keep is `RouteSources.HopCountsStayReal`.
- FloodTheorems.HopsAreReal: likewise.
- RouteSources.HopCountsStayReal: under the stated condition on peer lists and offers, which the program does not check.
- The forwarding of leave packets (what they do to the tables is `FloodTraffic.Event.Departed`), and the queue of packets waiting for a route.
- Field validation of packets and messages: requests arrive validated.
- Access invitations, grants and their signatures: `Authenticate` takes the outcome of the proof as a parameter.
- The order inside notices that a hash table's iteration decides: contracts say each is sent once.
- An empty room that looking up a missing room identifier would insert: no member of a missing room exists.
- A third thread reading the ring's indexes, clearing it under concurrency, and memory orders weaker than one access at a time.
- A decoder that could not be created, volume, and the rounding of doubles: jitter and loss are real numbers.
- The SDP text around the description's fields, which libdatachannel parses and prints: it is taken to hand the credentials and the texts of candidates on as it got them, and its own refusals of a text are the parameter `takes`. The length limit in `validate`.
- The printing and parsing of addresses and numbers by Qt beyond what `CandidateLineProofs.Sane` asks; texts are sequences of code points.
- Base64, compression and JSON forms of an invitation.
- Room recovery with stale views, and convergence when requests fail for ever: `RecoveryProofs.OneRoomAtRest` takes requests that succeed; that one client creates at most is proved with refused ones too.
- Clients that connect while a delivery is under way: the event loop takes up a new socket only between deliveries.
- JitterLateness.LateChangesNothing: not for late packets that claim a timestamp ahead of the newest, which do move the timestamp that later ones are measured by.
- Audio of a shared screen, capture and decoding, and the wrap-around of frame numbers.
- Signal handlers that call back into the connection manager while it runs, relays, statistics and the list of recent attempts.
- Mesh membership, retry delays and tokens: they would add easier members of the same kind as deadlines.
- Parsing of RTP headers, and activation counters beyond 64 bits.
- Clearing of the chat clock when a mesh is left: causes come first within one mesh.
