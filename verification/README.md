# Sound Stage: a verified model of the live rooms

A room of the backend is a set of membership rows in the database, presence flags in Redis,
WebSocket clients known to the hub, and one peer connection per client through which the server
forwards audio. This project models those parts, the rate limiter in front of them and the cursor
of the member list, and proves what they keep over every run. `dafny verify dfyconfig.toml` checks
all of it.

The shape is the same throughout: the state is a value, each operation is a function on it, the
class that mirrors the Go object is proved to do exactly what the function says (`View() ==
Step(old(View()), ...)`), and the laws are proved about the function for all inputs and all runs.

| file | what it holds |
|---|---|
| `Sfu.dfy`, `SfuLaws.dfy`, `MediaRouter.dfy` | track routing with each handler as one step: the operations, their invariant, the session store and router as objects |
| `SfuInterleaved.dfy` | the same protocol, with row reads and revocations, every critical section a step of its own and any number of goroutines |
| `SfuInterleavedLaws.dfy`, `SfuInterleavedOnce.dfy`, `SfuInterleavedSilence.dfy`, `SfuInterleavedLeftovers.dfy`, `SfuInterleavedScope.dfy`, `SfuInterleavedAnswers.dfy` | what all interleavings keep: every speaker is heard, how often a track is attached, when a revocation silences for good, which tracks are left behind, whom each goroutine leaves alone, and what it has done once over |
| `Stage.dfy`, `StageAnswers.dfy`, `WsHandlers.dfy` | membership and media together, as the WebSocket handlers and the revoker tie them: the laws of their runs, and what each event does |
| `Signalling.dfy` | offer/answer guards and the queue of early ICE candidates |
| `Hub.dfy`, `HubLaws.dfy` | the hub's event loop, the clients' bounded queues, the life of a connection |
| `RateLimiter.dfy` | the token bucket, its sweep, and what both amount to |
| `Membership.dfy`, `MembershipLaws.dfy`, `MembershipAnswers.dfy`, `MembershipService.dfy`, `Roles.dfy`, `RoomUsers.dfy` | rows, authorization, service calls as functions and as methods on objects, the laws of their runs, and when each call goes through and what it changes |
| `Presence.dfy`, `PresenceLaws.dfy` | participant hashes, the raised-hands index, their keys and patterns |
| `Cursor.dfy`, `Decimal.dfy`, `Chronology.dfy`, `MemberListing.dfy`, `MemberWalks.dfy` | the cursor, times as moments, the page query, and walks over tables that stand still or change |

## What turned out not to hold

The code is modelled as it is, and five properties one might expect fail. Each comes with a
reachable example and the exact condition under which the code does meet it.

- That no connection carries a past track: a client that joins again while others hear it leaves its old
  track on their connections, since `SessionStore.Add` closes the old session and drops its senders
  (`internal/web_rtc/session.go:84-87`, `98-111`); so do a track callback that publishes for a
  session replaced or removed meanwhile, and a stop whose `RemoveTrack` the WebRTC library refuses,
  which is logged and passed over (`internal/media_router/media_router.go:107-112`).
  `SfuLaws.RejoinLeavesStray` is such a run, and `SfuLaws.StepStraysIff` says that exactly these
  operations leave tracks of their own client behind. The exact fan-out of current tracks,
  `SfuLaws.FanOutIsExact`, holds of every run. With handlers interleaved a stop can also overtake a
  publication between attaching and recording a sender
  (`SfuInterleavedLeftovers.StopOvertakesPublication`); `SfuInterleavedLeftovers.LeftoverIff` says
  exactly what is left once nothing is under way.
- That a track is attached once: with overlapping handlers it can be attached twice
  (`SfuInterleavedOnce.OverlapAttachesTwice`), exactly when the join and the publication each read
  what the other had written (`SfuInterleavedOnce.TwiceIffBothSaw`).
- That a revocation silences for good: a callback that read its row before the block can set its track after the
  revocation is over (`SfuInterleavedSilence.CallbackOutlivesRevocation`), and two callbacks on one
  session can overwrite each other's stop channel, so that a forwarder outlives the revocation
  (`SfuInterleavedSilence.OverwrittenForwarderSurvives`). `SfuInterleavedSilence.RevocationWorksIff`
  is the exact condition at the moment the revocation begins: no such callback is under way and no
  stop channel has been overwritten. `SfuInterleavedSilence.SilentForGoodIff` is the one at any later moment.
- That ICE candidates keep their order: an accepted offer that then cannot be answered leaves waiting
  candidates behind, and later ones overtake them (`Signalling.StrandedCandidateExample`,
  `Signalling.OrderIsKeptUnlessStranded`).
- That a blocked user is a listener: `UpdateRole` on a blocked user writes the row and then reports that
  it was not found (`MembershipLaws.BlockedSpeakerExample`); the role of a blocked user is the last
  one given to them (`MembershipLaws.BlockedRoleIsLastGiven`).

## Model

| member | source | states |
|---|---|---|
| `SfuInterleavedLaws.NoMissedSpeaker` | internal/media_router/media_router.go:46-85 | In every interleaving of joins, publications, stops and departures, once a listener's join and a speaker's publication are both over, the listener's connection carries the speaker's current track at least once, unless the WebRTC library refused that attachment |
| `SfuInterleavedLaws.RunIsCovered` | internal/room_user/ws_handler.go:107-130 | At every moment of every interleaving, a connected speaker's track is on a connected listener's connection, was refused by the library, or some goroutine is still going to put it there |
| `SfuInterleavedLaws.StepIsSound` | internal/web_rtc/session.go:46-87 | Every single step keeps sessions and goroutines consistent: a stored session is open, recorded senders are of the session's own tracks, and a stop in progress only holds senders of tracks that can never become current again |
| `SfuInterleavedLaws.UpdateKeepsSettled` | internal/media_router/media_router.go:95-114 | No write of any goroutine takes a current track off a connection |
| `SfuInterleavedLaws.DeliveryMovesOn` | internal/media_router/media_router.go:66-85 | A goroutine that was going to deliver a track has, after its next step, delivered it, had it refused, or is still going to |
| `SfuInterleavedOnce.TwiceIffBothSaw` | internal/media_router/media_router.go:46-85 | When a join and a publication are over and nothing was refused, the listener carries the track twice if the join had read the track and the publication had found the session, and once otherwise |
| `SfuInterleavedOnce.OnceUnlessOverlapped` | internal/media_router/media_router.go:46-85 | In every interleaving a session carries a track at most twice, and at most once unless its join and the track's publication were under way at the same moment |
| `SfuInterleavedOnce.ExactlyOnce` | internal/room_user/ws_handler.go:107-130 | A finished join and a finished publication that never overlapped have attached the track exactly once, unless the library refused |
| `SfuInterleavedOnce.CopiesBySide` | internal/media_router/media_router.go:57-62 | A session's join attaches a track at most once, and so does the track's publication |
| `SfuInterleavedOnce.OverlapAttachesTwice` | internal/media_router/media_router.go:57-62 | A reachable state in which one connection carries the same track under two senders |
| `SfuInterleavedOnce.WithdrawnBetweenReads` | internal/media_router/media_router.go:52-58 | A reachable state in which a join that saw a track at its first read finds none at its second |
| `SfuInterleavedLeftovers.LeftoverIff` | internal/media_router/media_router.go:66-114 | In every interleaving, once nothing is under way, a live connection carries a track if and only if a sender of it is on record with the track's session or was lost: its record overwritten or dropped, or its removal refused |
| `SfuInterleavedLeftovers.SendersAreAccountedFor` | internal/media_router/media_router.go:57-114 | At every moment a sender of a live session is attached if and only if it is in one goroutine's hands, on record or lost, and it is only one of these |
| `SfuInterleavedLeftovers.PastOnRecord` | internal/media_router/media_router.go:57-62 | A past track is on record only if its sender was recorded after the track had been withdrawn, or if another track was set over it |
| `SfuInterleavedLeftovers.StopOvertakesPublication` | internal/media_router/media_router.go:66-114 | A run that ends with nothing under way and a past track on a connected listener's connection |
| `SfuInterleavedSilence.SilentForGoodIff` | internal/room_user/ws_handler.go:111-130 | A user who may not speak stays silent in every continuation in which that lasts, if and only if no forwarder of a connected client of theirs runs and no callback of one stands between reading the row and setting its track |
| `SfuInterleavedSilence.RevocationWorksIff` | internal/media_router/media_router.go:87-114 | A revocation, however interleaved while the user stays barred, has silenced the user for good once it is over, if and only if at its beginning no such callback was under way and no stop channel of the user's had been overwritten |
| `SfuInterleavedSilence.OverwrittenForwarderSurvives` | internal/web_rtc/session.go:46-54 | A reachable state in which the revocation is over, the user barred and no callback pending, and a forwarder of the user still runs |
| `SfuInterleavedSilence.ForwarderRunsIff` | internal/web_rtc/session.go:46-70 | In every interleaving a forwarder has not been told to stop if and only if its track is still the session's or the session set another while it was |
| `SfuInterleavedSilence.LeaksAreOverwritten` | internal/web_rtc/session.go:46-54 | The condition on stop channels holds exactly if no session of the user set a track over another |
| `SfuInterleavedSilence.CallbackOutlivesRevocation` | internal/room_user/ws_handler.go:112-128 | A reachable state in which the revocation is over and the user, still barred, can be heard later on |
| `SfuInterleavedScope.RevocationSparesOthers` | internal/media_router/media_router.go:87-93 | Whatever interleaves with it, no step of a revocation changes what a session of another user, or of the user in another room, publishes, forwards or has on record |
| `SfuInterleavedScope.EachMindsItsOwn` | internal/media_router/media_router.go:46-114 | The same of every join, track callback, stop and departure: none starts, silences or closes a session of a client it is not for |
| `SfuInterleavedScope.OthersStayHeard` | internal/media_router/media_router.go:95-114 | Nor does any of them take a track of such a client off a connection |
| `SfuInterleavedScope.TracksStayInRoom` | internal/media_router/media_router.go:46-85 | In every interleaving a connection carries tracks of other clients of its own room only |
| `SfuInterleavedAnswers.ClosedIffGone` | internal/web_rtc/session.go:98-130 | In every interleaving a session is closed if and only if it was replaced or removed, unless somebody is just about to close it |
| `SfuInterleavedAnswers.ClosedForGood` | internal/web_rtc/session.go:84-96 | A closed connection stays closed and neither gains nor loses a track |
| `SfuInterleavedAnswers.LeaverIsGone` | internal/room_user/ws_handler.go:151-181 | Once a departure is over, its client is no longer found, unless it has joined anew meanwhile |
| `SfuInterleavedAnswers.FinishedStopHasStopped` | internal/media_router/media_router.go:95-101 | A stop or departure that is over has found its client without a session or silenced it at one of its steps |
| `SfuInterleavedAnswers.FinishedCallbackHasPublished` | internal/room_user/ws_handler.go:111-131 | A track callback whose row let its client speak has, once over, set a new track for the session |
| `SfuInterleavedAnswers.RefusedIff` | internal/media_router/media_router.go:57-61 | An attachment counts as refused if and only if the WebRTC library refused it at some step, not merely because the connection was closed |
| `SfuLaws.FanOutIsExact` | internal/media_router/media_router.go:46-85 | With handlers as whole steps, in every run, a listener's connection carries each speaker's current track exactly once, under the sender the speaker has on record, or not at all exactly when attaching it failed |
| `SfuLaws.TracksStayInRoom` | internal/media_router/media_router.go:46-85 | In every run no connection carries a track of its own client or of another room |
| `SfuLaws.StepStraysIff` | internal/web_rtc/session.go:84-111 | An operation leaves a past track of a client on some connection if and only if it is that client's joining again while heard, its publishing to somebody for a session no longer in the store, or a stop of it (also before publishing or closing) in which the removal of a sender in place is refused |
| `SfuLaws.NoStrayTracks` | internal/media_router/media_router.go:46-114 | Whatever everybody else does, no connection carries a past track of a client to which none of these happened, and once stopped without a refusal it is carried nowhere |
| `SfuLaws.StopRemovesExactly` | internal/media_router/media_router.go:95-114 | In every run, stopping a client takes its current track off exactly the connections that do not refuse, takes nothing else, and silences the client in any case |
| `SfuLaws.HeardIffCarried` | internal/web_rtc/session.go:56-70 | In every run a client has a recorded sender in place if and only if some connection carries its current track, so a client that does not publish is safe to join again |
| `SfuLaws.RejoinLeavesStray` | internal/web_rtc/session.go:84-87 | A run in which a publishing client joins again and is then stopped, and the listener still carries its first track |
| `SfuLaws.StepKeepsInv` | internal/media_router/media_router.go:46-114 | Every operation keeps the invariant: a recorded sender in place carries its client's current track, an attached current track is on record with its owner, and every attached track is another client's of the room |
| `SfuLaws.StopEffect` | internal/web_rtc/session.go:56-70 | A stop silences the client and takes from each session exactly the slots that carried its current track and whose removal was not refused |
| `MediaRouter.SessionStore.Add` | internal/web_rtc/session.go:98-111 | The new session replaces the old one, which is closed; other sessions are untouched |
| `MediaRouter.SessionStore.Remove` | internal/web_rtc/session.go:119-130 | The entry goes and its session is closed |
| `MediaRouter.Session.StopPublishing` | internal/web_rtc/session.go:56-70 | The recorded senders are handed over and the session no longer publishes |
| `MediaRouter.MediaRouter.SubscribeToRoomTracks` | internal/media_router/media_router.go:46-64 | The loop gives the new session the tracks of all publishing clients of the list, as `Sfu.Subscribe` says |
| `MediaRouter.MediaRouter.FanOutTrack` | internal/media_router/media_router.go:67-85 | The loop attaches the track to every listed client with a session, as `Sfu.FanOut` says at once for all; a session no longer in the store keeps no sender; exactly the failing clients are told |
| `MediaRouter.MediaRouter.StopPublishing` | internal/media_router/media_router.go:95-114 | Taking the senders and detaching them one by one, in any order, passing over refused removals, amounts to `Sfu.StopPublishing` |
| `MediaRouter.MediaRouter.RevokePublishing` | internal/media_router/media_router.go:87-93 | Every listed client of the user is stopped and no other, refused removals notwithstanding |
| `Stage.SilenceLasts` | internal/room_user/service.go:102-120 | After a revoking call no client of the user that is still connected to the room publishes, for as long as the user holds no unblocked row with a speaking role |
| `Stage.SilencedIsUnheard` | internal/room_user/service.go:282-311 | Through all that time no connection carries a track of such a client, unless one of the steps of `Stage.StepStraysIff` left one behind |
| `Stage.StepStraysIff` | internal/room_user/ws_handler.go:88-181 | Among all handlers and service calls, exactly a client's own join while heard, its own late publication, and a stop of it by handler or revocation in which a removal is refused leave a past track of it behind |
| `Stage.RevokingCalls` | internal/room_user/service.go:295-301 | The revoking calls are exactly the blocks that go through and the permitted changes to listener, found or not; after one the user may not speak |
| `Stage.SpeakingIsGranted` | internal/room_user/ws_handler.go:112-119 | A user who may not speak can only come to by a manager's unblocking or role change, or by creating the room |
| `StageAnswers.CallbackIsExact` | internal/room_user/ws_handler.go:111-131 | The track of an owner, admin, moderator or speaker becomes the session's, if that is still the client's, and is put once on the connection of every other listed client unless that fails; a listener's track changes nothing |
| `StageAnswers.JoiningIsExact` | internal/room_user/ws_handler.go:88-110 | A member's new connection carries the track of every other publishing client of the list, once and on record, unless that fails, and no other track; a blocked user or stranger changes nothing |
| `StageAnswers.LeavingIsExact` | internal/room_user/ws_handler.go:151-162 | A member who leaves is offline, without presence and without a session, and its track is off exactly the connections that do not refuse; for anybody else nothing happens |
| `StageAnswers.DisconnectingIsExact` | internal/room_user/ws_handler.go:164-181 | A client whose connection ended loses its session and track in any case, and goes offline if it is a member |
| `StageAnswers.ConnectingIsExact` | internal/ws/handler.go:60-78 | Exactly the unblocked members of a room are let in, and then belong to it |
| `StageAnswers.HangingUpIsExact` | internal/ws/hub.go:55-62 | A client whose connection ends is off the room's list at once, and nothing else changes |
| `StageAnswers.ServingIsExact` | internal/room_user/service.go:295-301 | A block or demotion silences the connected clients of that user in that room; every other client keeps its track and the senders it has on record |
| `StageAnswers.RevokingIsExact` | internal/media_router/media_router.go:87-93 | Each listed client of the user is silenced; all others keep what they publish and lose only tracks that a silenced client had on record |
| `Stage.RunKeepsInv` | internal/room_user/ws_handler.go:88-181 | The invariant of track routing also holds in every run of handlers and service calls together |
| `WsHandlers.WsHandler.HandleUserJoined` | internal/room_user/ws_handler.go:88-130 | The handler's calls amount to one `JoinStream` step of the stage |
| `WsHandlers.WsHandler.OnTrack` | internal/room_user/ws_handler.go:111-131 | The callback's calls amount to one `OnTrack` step, for the client's session or for one replaced or removed since: nothing for a listener, stop then publish otherwise |
| `WsHandlers.WsHandler.HandleUserLeft` | internal/room_user/ws_handler.go:151-162 | Amounts to one `LeaveRoom` step: media is left alone when the row cannot be updated |
| `WsHandlers.WsHandler.HandleClientDisconnected` | internal/room_user/ws_handler.go:164-181 | Amounts to one `Disconnected` step: media is closed in any case |
| `WsHandlers.Moderation.Block` | internal/room_user/service.go:102-120 | Row update and revocation amount to one step of the stage, with the result the caller gets |
| `WsHandlers.Moderation.UpdateRole` | internal/room_user/service.go:282-311 | The same for a role change, which revokes even when it then fails |
| `Signalling.CandidatesAreConserved` | internal/web_rtc/session.go:21-44 | Each accepted candidate is either handed over once or still waiting, and none is handed over before there is a remote description |
| `Signalling.OrderIsKeptUnlessStranded` | internal/web_rtc/session.go:21-44 | Arrival order is kept if and only if no candidate arrives while older ones wait beside an accepted, unanswered offer |
| `Signalling.AnsweredOffersNeverStrand` | internal/room_user/ws_handler.go:231-256 | If every accepted offer is answered, nothing is ever left waiting |
| `Signalling.StrandedCandidateExample` | internal/room_user/ws_handler.go:231-256 | A run in which a candidate is overtaken and never handed over |
| `Signalling.ExchangeIsExact` | internal/room_user/ws_handler.go:231-301 | Which descriptions lead from which signalling state to which (RFC 8829, section 3.2), and that only a completed exchange hands over the waiting candidates |
| `Signalling.HandleOffer` | internal/room_user/ws_handler.go:242-255 | Admits an offer only in the stable state, answers it and flushes the queue (RFC 8829, sections 3.2 and 3.5.2) |
| `Signalling.HandleAnswer` | internal/room_user/ws_handler.go:290-301 | Admits an answer only with a local offer outstanding |
| `Signalling.Session.AddRemoteCandidate` | internal/web_rtc/session.go:21-30 | Kept back without a remote description, handed over with one |
| `Signalling.Session.FlushRemoteCandidates` | internal/web_rtc/session.go:32-44 | All waiting candidates are handed over in order and the queue is emptied; the first failure is reported |
| `HubLaws.HubIsSafe` | internal/ws/hub.go:47-79 | In every run no message is sent on and no close made of a closed channel, a room lists exactly its open clients, and no empty room is kept |
| `HubLaws.MembersAreRegistered` | internal/ws/hub.go:47-79 | In every run the hub's list of a room holds exactly the clients that registered with it and were not unregistered since |
| `HubLaws.WriterSeesInOrder` | internal/ws/client.go:34-39 | What a client's writer gets is an in-order subsequence of what was broadcast to its room or sent to it between its registration and its unregistration, and all of it exactly when no message found 256 others waiting |
| `HubLaws.DeliveryAccounts` | internal/ws/client.go:67-92 | Delivered and dropped messages add up to those addressed |
| `HubLaws.TakenOnlyGrows` | internal/ws/client.go:74-84 | What the writer has taken is never revised, and grows by the message that has waited longest |
| `Hub.Hub.Register` | internal/ws/hub.go:50-54 | The client is added to its room, which is made if need be |
| `Hub.Hub.Unregister` | internal/ws/hub.go:55-62 | Closes the channel once, removes the client and an empty room; nothing for a client never registered or removed since |
| `Hub.Hub.BroadcastToRoom` | internal/ws/hub.go:63-66 | Each client of the room, in any order, is offered the message once |
| `Hub.Hub.SendToClient` | internal/ws/hub.go:67-70 | A registered client is offered the message; one never registered or removed since is passed over |
| `Hub.Hub.ClientsInRoom` | internal/ws/hub.go:71-76 | Exactly the room's clients, each once |
| `Hub.Client.Send` | internal/ws/client.go:34-39 | Queued while there is room, dropped otherwise |
| `HubLaws.Endpoint.ServeWS` | internal/ws/handler.go:51-85 | The loop produces the connection's whole life: registration, the handled events up to the first broken frame, unregistration, disconnect handlers |
| `HubLaws.ConnectionHasOneLife` | internal/ws/handler.go:43-92 | Registered first and unregistered once; between the two every frame before the first broken one whose event has a handler is dispatched to it, in order and once, and nothing else is; each disconnect handler runs once afterwards, in order |
| `RateLimiter.LimiterIsExact` | internal/middleware/rate_limiter.go:33-62 | A request is admitted if and only if, for every earlier request of its address and itself, admissions since then plus one stay within 100 plus one per 600 ms |
| `RateLimiter.WindowBound` | internal/middleware/rate_limiter.go:33-62 | Any stretch of requests admits at most 100 plus one per 600 ms of its span |
| `RateLimiter.AddressesAreIndependent` | internal/middleware/rate_limiter.go:33-45 | The decisions for an address are those of a limiter that sees only its requests |
| `RateLimiter.SweepIsExact` | internal/middleware/rate_limiter.go:68-79 | A bucket survives a sweep unchanged if and only if it was used within the last thirty minutes |
| `RateLimiter.CleanupIsUnobservable` | internal/middleware/rate_limiter.go:68-79 | Whatever the sweeps and their clock readings, the decisions are those of a limiter that never deletes a bucket |
| `RateLimiter.Limiter.Handle` | internal/middleware/rate_limiter.go:26-66 | One request against the bucket table; OPTIONS requests touch nothing |
| `RateLimiter.Limiter.Sweep` | internal/middleware/rate_limiter.go:68-79 | Deletes exactly the buckets idle for more than thirty minutes |
| `RateLimiter.Bucket.Take` | internal/middleware/rate_limiter.go:47-62 | Refill up to the maximum, then pay one token if there is one |
| `MembershipLaws.EveryRunIsConsistent` | internal/room_user/repo.go:197-216 | In every run blocked rows are offline, a row names its blocker exactly when blocked, owners are unblocked creators, and row ids are unique |
| `MembershipLaws.OnlineCountsAddUp` | internal/room_user/service.go:154-181 | Online listeners plus online speakers are the online unblocked members, and at most the total |
| `MembershipLaws.LeavingLowersOneCounter` | internal/room_user/service.go:183-195 | Leaving lowers by one exactly the counter that the returned row's right to speak names, and only for a member who was online |
| `MembershipLaws.PrivilegeNeverGrows` | internal/role/model.go:18-40 | From a room's creation on, no unblocked member ever ranks above listener and above everyone unblocked before, even through roles given to blocked users |
| `MembershipLaws.NewRoleIsGranted` | internal/room_user/authz.go:33-42 | Whoever newly holds a role got it by an unblocking or role change of an unblocked member of at least that rank |
| `MembershipLaws.OwnerIsUnique` | internal/room/service.go:151-159 | In every reachable world a room has at most one owner, its unblocked creator |
| `MembershipLaws.OwnerIsNeverAssigned` | internal/room_user/authz.go:80-89 | Only creating a room makes an owner |
| `MembershipLaws.OwnerIsProtected` | internal/room_user/authz.go:22-78 | No call blocks an owner or removes their row, short of their deleting the room, and nobody else's muting them goes through |
| `MembershipLaws.OwnershipLasts` | internal/room_user/authz.go:22-78 | Ownership lasts through any run until the owner's role is changed or the owner deletes the room |
| `MembershipLaws.MicrophoneOpensByOwner` | internal/room_user/authz.go:116-137 | The only call that turns a muted user unmuted is that user's own unmuting, with missing state, leaving, room deletion and hand raising all counted in |
| `MembershipLaws.SilentUntilOwnerSpeaks` | internal/room_user/service.go:325-331 | A muted user stays muted through any run without their own unmuting |
| `MembershipLaws.RoleChangeOfBlockedUser` | internal/room_user/service.go:295-309 | A permitted role change fails exactly when the target is absent or blocked, and has written the row all the same |
| `MembershipLaws.BlockedRoleIsLastGiven` | internal/room_user/service.go:282-311 | While a user stays blocked their role is the last one given to them, by the block or by a permitted change since |
| `MembershipLaws.BlockedSpeakerExample` | internal/room_user/repo.go:159-164 | A run of four calls that ends with a not-found error and a blocked speaker |
| `MembershipLaws.BlockedUserIsPowerless` | internal/room_user/authz.go:157-179 | Whatever a blocked user asks for in the room is refused and changes nothing |
| `MembershipAnswers.JoiningIsExact` | internal/room/service.go:359-381 | Joining goes through exactly for an unblocked member, whatever the code, and for a newcomer to a public room or with the room's code; each error has its condition; the row is online with the new time, a newcomer's is an unblocked listener's under the new id, and nothing else changes |
| `MembershipAnswers.BlockingIsExact` | internal/room_user/authz.go:22-31 | A block goes through exactly for another, unblocked member whose role acts on the target's; then that one row is a blocked, offline listener's, and publishing is revoked |
| `MembershipAnswers.UnblockingIsExact` | internal/room_user/service.go:122-128 | The same for unblocking, which needs a blocked target and gives back the row unblocked |
| `MembershipAnswers.RoleChangeIsExact` | internal/room_user/service.go:282-311 | Who may hand out which role, when that fails, and what it writes; a change to listener mutes the user and revokes their publishing, and no other does |
| `MembershipAnswers.RemovingIsExact` | internal/room_user/service.go:313-323 | A member but the owner removes themselves, a manager others who are not blocked; row and presence go, and nothing else |
| `MembershipAnswers.LeavingIsExact` | internal/room_user/service.go:183-195 | Leaving goes through exactly for unblocked members and takes them offline and their presence away |
| `MembershipAnswers.MutingIsExact` | internal/room_user/service.go:325-331 | Everybody unblocked mutes and unmutes themselves, a manager mutes those they act on and unmutes nobody; the flag is then what was asked for |
| `MembershipAnswers.RaisingIsExact` | internal/room_user/service.go:333-352 | Exactly unblocked members raise and lower their hands, and nobody else's flags change |
| `MembershipAnswers.CreatingIsExact` | internal/room/service.go:142-193 | A new room has its creator as its online owner and admits exactly by its code if it is private |
| `MembershipAnswers.UpdatingRoomIsExact` | internal/room/service.go:195-221 | Owners and admins open and close a room; a room that stays private keeps its code, and one that becomes private gets the new one unless it has one already |
| `MembershipAnswers.RenewingCodeIsExact` | internal/room/service.go:348-357 | Owners and admins renew the code, which is then the one that admits newcomers to a private room |
| `MembershipAnswers.CodesAreThere` | internal/room/service.go:359-381 | In every run a private room has a code, so joining never follows a missing one |
| `MembershipAnswers.DeletingRoomIsExact` | internal/room/service.go:296-322 | Only the owner deletes a room; its rows and presence go, and those of no other room |
| `MembershipAnswers.CountsAreExact` | internal/room_user/service.go:154-181 | The three counts are those of the unblocked members, the online listeners among them and the online others |
| `MembershipLaws.UnblockUndoesBlock` | internal/room_user/service.go:122-128 | Unblocking restores the row as it was but for role, presence and time of leaving |
| `MembershipLaws.BlockLasts` | internal/room/service.go:359-381 | A block lasts through any run in which the user is not unblocked and the room not deleted |
| `Roles.TablesFollowRank` | internal/role/model.go:18-40 | Both tables follow one ranking: a role is handed out only by that rank or above and never owner; a manager moderates exactly the roles up to its own |
| `MembershipLaws.RejoinUndoesLeaving` | internal/room_user/repo.go:54-70 | Leaving and coming back restores the row but for its two times, with the member online, muted and hand down, and touches nobody else |
| `MembershipService.RoomUserService.AttachStates` | internal/room_user/service.go:257-276 | The loop gives each listed user their own stored flags, or the defaults |
| `MembershipService.RoomService.AddRoomUser` | internal/room/service.go:359-381 | Refused for blocked users and wrong codes; otherwise a rejoin or a new listener |
| `MembershipService.RoomService.Delete` | internal/room/service.go:296-322 | Room, rows and presence state go together, for the owner only |
| `PresenceLaws.KeysNeverCollide` | internal/room_state/repo.go:180-186 | Participant keys are injective in room and user and never equal a raised-hands key |
| `PresenceLaws.PatternMatchesExactly` | internal/room_state/repo.go:115-136 | A room's pattern matches exactly its own participants' keys: room 4 never takes room 44 |
| `PresenceLaws.DeleteRoomIsExact` | internal/room_state/repo.go:115-136 | Deleting a room's state removes all of it and changes no other room |
| `PresenceLaws.RaisedHandsIndexAgrees` | internal/room_state/repo.go:29-75 | After any sequence of operations the sorted set of a room holds exactly the users whose hash says the hand is raised |
| `PresenceLaws.ListedHandsAreRaised` | internal/room_state/repo.go:138-163 | The listed ids are exactly those users, each once, and the count is their number |
| `PresenceLaws.HandsAreListedInOrder` | internal/room_state/repo.go:49-75 | After any sequence of operations whoever last raised a hand earlier is listed earlier |
| `PresenceLaws.PagesCoverList` | internal/pkg/listopts/pagination.go:12-14 | For every page size the pages concatenate to the whole list, without gap or repeat |
| `PresenceLaws.SetMutedChangesOnly` | internal/room_state/repo.go:29-47 | Muting changes one participant's flag and nothing else anybody can read |
| `PresenceLaws.SetHandRaisedChangesOnly` | internal/room_state/repo.go:49-75 | Raising or lowering a hand changes one participant's flag and keeps the microphone's |
| `PresenceLaws.DeleteParticipantChangesOnly` | internal/room_state/repo.go:103-113 | Leaving returns one participant to the defaults |
| `Presence.RedisRepo.DeleteRoomState` | internal/room_state/repo.go:115-136 | The cursor loop deletes every matching key under SCAN's at-least-once guarantee, repeats and foreign keys included |
| `Presence.RedisRepo.GetRaisedHands` | internal/room_state/repo.go:138-155 | The page's slice of the index, unreadable members skipped |
| `Presence.RedisRepo.SetHandRaised` | internal/room_state/repo.go:49-75 | Hash field and index entry are written together |
| `Cursor.CursorRoundTrip` | internal/pkg/listopts/cursor.go:18-36 | Decoding an encoded cursor returns exactly its time and id |
| `Cursor.DecodeIsExact` | internal/pkg/listopts/cursor.go:22-36 | A cursor is read exactly if it has one separator with a time before it and a number after it, and then as these |
| `Cursor.ReadAsWritten` | internal/pkg/listopts/cursor.go:22-36 | A text in the layout's own form is read only as the time that it prints, with nothing after it |
| `Cursor.StampRoundTrip` | internal/pkg/listopts/cursor.go:11-36 | The layout prints and reads back every valid UTC time with a four-digit year, to the nanosecond |
| `Chronology.EarlierIffSooner` | internal/pkg/listopts/cursor.go:38-48 | Comparing two times field by field is comparing the nanoseconds since the year 0 |
| `Chronology.CursorsSortByTime` | internal/pkg/listopts/cursor.go:11-20 | The cursor layout sorts byte by byte as the times do |
| `MemberListing.PageIsExact` | internal/room_user/repo.go:84-108 | For any cursor a page holds the first rows, in chronological order, that are of the room, unblocked, kept by the filter and later than the cursor, as many as the limit allows, and says whether there are more |
| `MemberListing.FixedWalkIsComplete` | internal/room_user/repo.go:84-108 | Following the cursors over a table that stands still yields every unblocked matching row once, in order, in ceil(rows / limit) pages, or one page when there are none |
| `MemberListing.FixedWalkExists` | internal/pkg/listopts/cursor.go:38-48 | Every such walk comes to an end |
| `MemberListing.ListedIs` | internal/room_user/model.go:146-158 | The query returns exactly the matching rows past the cursor, in the order of their moments of joining and then of their ids |
| `MemberListing.ChangingWalkSkipsNothing` | internal/room_user/repo.go:84-108 | However the table changes between pages, a row that matches throughout and only moves on is on some page |
| `MemberWalks.NoMemberIsSkipped` | internal/room_user/repo.go:54-62 | Through any run of membership calls with a clock that does not go back, a member whose row stays and matches at each request is on some page |

## Left out

- `SfuLaws.NoStrayTracks`: holds of clients to which none of the things happened that `SfuLaws.StepStraysIff` names; the code leaves tracks behind otherwise.
- `Stage.SilencedIsUnheard`: has the same condition, on the silenced client; `Stage.SilenceLasts` has none.
- `SfuInterleavedLaws.NoMissedSpeaker`: at least once; how often exactly is `SfuInterleavedOnce.TwiceIffBothSaw`.
- `MemberWalks.NoMemberIsSkipped`: assumes a clock that does not go back; with one that does, a rejoin could move a row to a page already passed.
- The database, Redis and the network do not fail in the model: the I/O error returns that only pass such a failure on are not modelled, nor are peer connections and forwarding tracks that cannot be made.
- What the handlers broadcast about joins, departures and presence is not modelled; how the hub delivers a broadcast is.
- SQL and GORM are their meaning on maps; one service call, or one Redis pipeline, is one step, except in `SfuInterleaved`.
- The interleaved model knows of a membership row only whether it lets its user speak. Silence there is that no forwarder runs for a connected client's session.
- In the interleaved model the second read of a local track that has just been withdrawn skips the client; the source would pass a nil track on to the library. `SfuInterleavedOnce.WithdrawnBetweenReads` shows that this comes about.
- The track callback on a missing or blocked row dereferences nil in the source (`internal/room_user/ws_handler.go:112-119`); that step is not defined here.
- Removing a user (`DeleteUser`) does not revoke their publishing in the source, so silence is claimed for blocks and demotions only.
- Peer connections are their senders, a closed flag, the signalling state and the candidates handed to them; SDP, ICE, DTLS, RTP forwarding, rollbacks and provisional answers are not part of this model. A closed connection delivers no track in the model with whole steps.
- The hub's endless loop is a run of its events; ping/pong timers, JSON and gorilla sockets are left out.
- Token counts are exact integers of refill time where the source uses `float64`.
- Times are UTC calendar fields; conversion from other zones and the time resolution of the database are left out.
- Row filters are an arbitrary predicate on rows; name search and the `sort` parameter of other lists are left out. Page limits are at least one, as `internal/room_user/handler.go:71-76` sees to.
- Glob patterns have no character classes or escapes, which no key pattern uses.
- `uint` is 64 bits wide.
- Who may view a room or list its members (`CanView`, `CanListUsers`, `CanListRaisedHands`) is a lookup that changes nothing.
- Private codes are parameters of the calls that generate them.
- HTTP handlers, presenters, validators, categories, tags, chat, OTP and tokens, uploads, mail and server wiring would only add easy members.
- Offset-paginated room, tag and chat lists have no total order to prove anything about.
