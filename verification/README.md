# Voice-room signaling orchestrator, modelled in Dafny

One browser tab, the host, opens a voice room. Other tabs, the
participants, join it. The connections form a star around the host: the host
negotiates one direct audio connection with each participant, and a
participant connects only to the host. The host relays each participant's
audio tracks to every other participant over those connections. The
negotiation runs through a relay server reached over one WebSocket. This
project models the part of the browser application that drives it.

- `SignalingClient` (`signaling.dfy`, module `Signaling`) keeps a registry
  from event kind to an ordered list of handlers. It dispatches socket events
  to them and sends relay messages `{ type, payload? }`.
- `HostSignalingClient` (`host_client.dfy`, module `HostClient`) holds the room
  id and a registry of Local peers, one per participant. It routes answers
  and ICE candidates to the first peer whose id matches the message's
  `clientId`. It drops a peer whose connection is lost, and relays every
  remote audio track to all the other peers.
- `PeerSignalingClient` (`participant_client.dfy`, module `ParticipantClient`)
  holds the host's id and at most one Remote peer. It answers offers and
  registers itself with the relay when the socket is open, or defers that
  until the socket opens.
- `RtcLib` with its roles `RTCLocalPeer` and `RTCRemotePeer` (`rtc_lib.dfy`,
  module `RtcLib`) wraps one peer connection. It manages data-channel labels,
  reacts to connection-state changes and performs the offer/answer steps.

Both source files are imperative, so every object of the source is a Dafny
`class` whose methods update its fields. Each class has a `State()` function
that gives its observable state as a value. Each operation `X` is specified
by a pure function (`XEffect`, `HandleMessageEffect`, ...) on that value. The
method's `ensures` says that the new state is the function applied to the old
one, and lemmas state what the functions guarantee.

The peer-connection engine, the media layer and the socket are abstract:

- Every call the code makes into the engine (`createOffer`,
  `setRemoteDescription`, `addIceCandidate`, `addTrack`, `close`,
  `getUserMedia`, ...) is appended to the peer's `calls` log.
- What the engine answers (the offer or answer it creates, the resulting
  local description, the microphone stream or its absence) is a parameter of
  the handler that receives it.
- A message sent on the socket joins the client's `outbox`. Every handler call
  joins its `invocations` log.
- `wrappers.dfy` holds `Option`, `Result` and `Outcome`.

The model follows the code in several places where one might expect
otherwise:

- A second `ClientAdded` for a registered id registers a second peer with
  that id.
- A later `ChannelCreated` replaces the room id.
- The host sends ICE candidates even when it has no room id.
- A Remote peer keeps incoming data channels without checking their labels.
- A Local peer acquires local audio after applying an answer, not on
  "connected".
- A lost Remote connection requests a reload; it does not notify the owner.
- `send` on a closing or closed socket discards the message without an
  error. Only a socket that is still connecting makes `send` throw.

## Model

| member | source | states |
|---|---|---|
| RtcLib.HasLabel | src/lib/rtc.lib.ts:47 | true exactly when some channel in the list carries the label |
| RtcLib.AddTrackCallsAt | src/lib/rtc.lib.ts:93-95 | attaching a stream adds each of its tracks exactly once, in track order |
| RtcLib.AddCandidateCallsAt | src/lib/socket.lib.ts:171-173 | applying a candidate array adds each candidate exactly once, in array order |
| RtcLib.CreateChannelOutcome | src/lib/rtc.lib.ts:46-54 | `createChannel` fails exactly when the label is in use, and then changes nothing; otherwise it appends one channel with that label and asks the engine for it |
| RtcLib.CreateChannelKeepsLabelsUnique | src/lib/rtc.lib.ts:46-54 | when the labels are pairwise distinct before `createChannel`, they still are after it |
| RtcLib.IncomingChannelByRole | src/lib/rtc.lib.ts:56-60 | a Local peer ignores an incoming channel; a Remote peer keeps each one, adding exactly one occurrence |
| RtcLib.LocalStateChange | src/lib/rtc.lib.ts:134-154 | Local peer: "connected" only detaches renegotiation; "disconnected"/"failed" close the connection, and notify the owner exactly when `onDestroy` is set; other states change nothing |
| RtcLib.RemoteStateChange | src/lib/rtc.lib.ts:188-199 | Remote peer: "closed"/"disconnected"/"failed" close the connection and request a reconnect; other states change nothing; the owner is never notified |
| RtcLib.NoNegotiationAfterConnect | src/lib/rtc.lib.ts:152-164 | once a Local peer is connected, a negotiation request neither calls the engine nor produces an offer |
| RtcLib.RtcPeer.constructor | src/lib/rtc.lib.ts:16-38 | a new wrapper has no channel and no engine call; only the Local role listens for negotiation |
| RtcLib.RtcPeer.CreateChannel | src/lib/rtc.lib.ts:46-54 | new state and result are those of `CreateChannelEffect`; label uniqueness is preserved |
| RtcLib.RtcPeer.OnDataChannel | src/lib/rtc.lib.ts:56-60 | new state is `DataChannelEffect` for the peer's role |
| RtcLib.RtcPeer.AddTrackToConnection | src/lib/rtc.lib.ts:62-64 | exactly one `addTrack` call is logged and nothing else changes |
| RtcLib.RtcPeer.AddStreamTracks | src/lib/rtc.lib.ts:93-95 | the loop logs one `addTrack` per stream track, in order (see `AddTrackCallsAt`), and nothing else changes |
| RtcLib.RtcPeer.AddIceCandidate | src/lib/rtc.lib.ts:166-168 | exactly one `addIceCandidate` call is logged |
| RtcLib.RtcPeer.AddIceCandidates | src/lib/socket.lib.ts:171-173 | the loop logs one `addIceCandidate` per candidate, in array order, and nothing else changes |
| RtcLib.RtcPeer.CreateOffer | src/lib/rtc.lib.ts:66-74 | creates an offer, applies it as local description and returns the engine's local description |
| RtcLib.RtcPeer.SetRemoteDescription | src/lib/rtc.lib.ts:76-81 | exactly one `setRemoteDescription` call of the given type and SDP |
| RtcLib.RtcPeer.CreateAnswer | src/lib/rtc.lib.ts:83-86 | creates an answer, applies it as local description and returns the local description |
| RtcLib.RtcPeer.AddLocalTracksToConnection | src/lib/rtc.lib.ts:88-99 | best-effort acquisition: `getUserMedia`, then the tracks of the stream when there is one; a failure adds nothing and does not escape |
| RtcLib.RtcPeer.OnIceCandidate | src/lib/rtc.lib.ts:40-44 | a candidate is forwarded under the peer's id exactly when one was gathered |
| RtcLib.RtcPeer.OnTrack | src/lib/rtc.lib.ts:124-132 | a remote stream is relayed to the owner under the peer's id exactly for a Local peer with `onRemoteTrack` set |
| RtcLib.RtcPeer.OnConnect | src/lib/rtc.lib.ts:152-154 | detaches the negotiation listener and changes nothing else |
| RtcLib.RtcPeer.OnConnectionStateChange | src/lib/rtc.lib.ts:134-150 | new state and destroy flag are `StateChangeEffect` for the peer's role: the Local handler at these lines (see `LocalStateChange`) and the Remote handler at rtc.lib.ts:188-199 (see `RemoteStateChange`) |
| RtcLib.RtcPeer.OnNegotiationNeeded | src/lib/rtc.lib.ts:156-164 | new state and offer to send are `NegotiationEffect` (see `NoNegotiationAfterConnect`) |
| RtcLib.RtcPeer.HandleIncomingAnswer | src/lib/rtc.lib.ts:170-173 | applies the answer as remote description, then acquires and attaches local tracks, in that order |
| RtcLib.RtcPeer.HandleIncomingOffer | src/lib/rtc.lib.ts:211-217 | applies the offer, creates and applies an answer, then acquires local tracks, and returns the local description |
| Signaling.EmptyRegistry | src/lib/socket.lib.ts:43-51 | a new registry has a list for every event kind, and every list is empty |
| Signaling.WithoutCounts | src/lib/socket.lib.ts:105-108 | unsubscribing removes every copy of the handler and keeps every other handler as often as it was there |
| Signaling.WithoutSplits | src/lib/socket.lib.ts:105-108 | unsubscribing filters each part of a list separately, so the remaining handlers keep their order |
| Signaling.WithoutAbsent | src/lib/socket.lib.ts:105-108 | unsubscribing a handler that is not subscribed changes nothing |
| Signaling.WithoutIdempotent | src/lib/socket.lib.ts:105-108 | a second unsubscribe of the same handler changes nothing |
| Signaling.SubscribeThenUnsubscribe | src/lib/socket.lib.ts:100-108 | subscribing a new handler and then unsubscribing it restores the registry |
| Signaling.Deliver | src/lib/socket.lib.ts:64-69 | a dispatch never changes the registry or the socket state |
| Signaling.FirstSender | src/lib/socket.lib.ts:64-69 | the position of the first sending handler: every earlier one is a plain callback |
| Signaling.DeliverOpen | src/lib/socket.lib.ts:64-69 | on an open socket a dispatch calls every handler once, in order, sends what they send and returns normally |
| Signaling.Reached | src/lib/socket.lib.ts:64-69 | the handlers reached by a dispatch whose first send fails: a prefix up to and including the first sender |
| Signaling.DeliverConnecting | src/lib/socket.lib.ts:64-69 | on a connecting socket the dispatch stops at the first sending handler with a `TransportError`; nothing is sent |
| Signaling.DeliverClosed | src/lib/socket.lib.ts:64-69 | on a closing or closed socket every handler is called once, in order; nothing is sent and nothing fails |
| Signaling.DeliverCallbacks | src/lib/socket.lib.ts:64-69 | with plain callbacks only, a dispatch calls each once, in order, and changes nothing else, whatever the socket state |
| Signaling.DeliverCallsOnly | src/lib/socket.lib.ts:64-69 | in every socket state a dispatch only appends to the invocation log, and each appended invocation calls one of the dispatched handlers |
| Signaling.DispatchAfterSubscribe | src/lib/socket.lib.ts:64-69 | a newly subscribed handler is called last by the next dispatch of its event, after the handlers already there, unless a send fails first; on a connecting socket this needs every handler to be a plain callback, in any other state it always holds |
| Signaling.DispatchAfterUnsubscribe | src/lib/socket.lib.ts:64-69 | after unsubscribing, a dispatch of that event never calls the handler, in every socket state |
| Signaling.ParsedFrameReachesSubscribers | src/lib/socket.lib.ts:88-98 | a parsed frame reaches every `OnSocketMessage` handler exactly once, in order, carrying the message, when those handlers are plain callbacks |
| Signaling.NoSends | src/lib/socket.lib.ts:64-69 | plain callbacks send nothing |
| Signaling.SignalingClient.constructor | src/lib/socket.lib.ts:54-62 | a new client has an empty registry, a connecting socket and an empty log |
| Signaling.SignalingClient.Subscribe | src/lib/socket.lib.ts:100-103 | the handler is appended to its event's list |
| Signaling.SignalingClient.Unsubscribe | src/lib/socket.lib.ts:105-108 | every reference to the handler leaves its event's list (see `WithoutCounts`) |
| Signaling.SignalingClient.Send | src/lib/socket.lib.ts:110-118 | open: the message is sent; connecting: `TransportError` and nothing sent; closing or closed: discarded without an error |
| Signaling.SignalingClient.Dispatch | src/lib/socket.lib.ts:64-69 | the loop calls the handlers of the snapshot in order and stops at the first failing send, as `Deliver` says |
| Signaling.SignalingClient.OnOpen | src/lib/socket.lib.ts:71-74 | the socket becomes open, then `OnSocketOpened` is dispatched |
| Signaling.SignalingClient.OnClose | src/lib/socket.lib.ts:76-79 | the socket becomes closed, then `OnSocketClosed` is dispatched |
| Signaling.SignalingClient.OnError | src/lib/socket.lib.ts:81-86 | `OnSocketError` is dispatched with the error's type |
| Signaling.SignalingClient.OnMessage | src/lib/socket.lib.ts:88-98 | an unparsable frame changes nothing; a parsed one is dispatched once, and a failure inside is absorbed |
| HostClient.FirstWithId | src/lib/socket.lib.ts:165 | the position of the first entry whose id equals the given one; none exactly when no entry has it |
| HostClient.WithoutIdMembers | src/lib/socket.lib.ts:192 | removal keeps exactly the entries whose id differs |
| HostClient.WithoutIdSplits | src/lib/socket.lib.ts:192 | removal filters each part of the registry separately, so order is kept |
| HostClient.WithoutIdCounts | src/lib/socket.lib.ts:192 | removal drops every occurrence of the id and keeps every other id as often as before |
| HostClient.WithoutIdIdempotent | src/lib/socket.lib.ts:192 | a second removal of the same id changes nothing |
| HostClient.WithoutIdIgnoresRemoved | src/lib/socket.lib.ts:192 | what becomes of an entry carrying the removed id does not change the result of the removal |
| HostClient.OfferNeedsRoom | src/lib/socket.lib.ts:209-221 | an offer with room, participant id and SDP leaves exactly when the room id is non-empty and the socket is open; nothing else changes |
| HostClient.ChannelCreatedSetsRoom | src/lib/socket.lib.ts:147-153 | `ChannelCreated` with an id replaces the room id and announces it once to plain-callback subscribers; without an id nothing changes |
| HostClient.ClientAddedAppendsOne | src/lib/socket.lib.ts:154-162 | `ClientAdded` appends exactly one new peer with the payload's id, keeps the others, and announces it once to plain-callback subscribers; without a payload nothing changes |
| HostClient.ClientAddedKeepsDuplicates | src/lib/socket.lib.ts:154-162 | a `ClientAdded` for a registered id adds one more peer with that id |
| HostClient.AnswerReachesFirstMatch | src/lib/socket.lib.ts:163-167 | a `NewAnswer` changes only the first peer with the message's id, which applies the answer; a missing or empty answer or an unknown id changes nothing |
| HostClient.CandidatesReachFirstMatch | src/lib/socket.lib.ts:168-175 | an `IceCandidate` changes only the first peer with the message's id, and that peer applies the candidates in array order; without candidates nothing changes |
| HostClient.TrackRelayPairs | src/lib/socket.lib.ts:180-189 | every peer but those with the sender's id adds each track once, in order, after its earlier calls; the sender's peers are unchanged; ids and order are kept |
| HostClient.PeerDestroyedRemovesAll | src/lib/socket.lib.ts:191-195 | every peer with the id leaves, the others stay, and the departure is announced once to plain-callback subscribers; repeating it keeps the registry and announces again |
| HostClient.LostPeerLeavesRegistry | src/lib/rtc.lib.ts:134-150 | a peer that loses or fails its connection leaves the registry with every peer sharing its id; "connected" only stops renegotiation; other states change nothing |
| HostClient.NegotiationSendsOffer | src/lib/rtc.lib.ts:156-164 | a peer's offer reaches its participant exactly when its listener is attached, the engine gave a description, the room id is set and the socket is open |
| HostClient.HostSignalingClient.constructor | src/lib/socket.lib.ts:133-141 | a new host has no room, no peers and only its router subscribed, to `OnSocketMessage` |
| HostClient.HostSignalingClient.PeersNames | src/lib/socket.lib.ts:125-127 | the peers' ids, one per registry entry, in order |
| HostClient.HostSignalingClient.FindPeer | src/lib/socket.lib.ts:165 | the position `peers.find` picks, as `FirstWithId` characterises it |
| HostClient.HostSignalingClient.HandleMessage | src/lib/socket.lib.ts:143-178 | new state is `HandleMessageEffect` (see the lemmas per message type) |
| HostClient.HostSignalingClient.WiredPeer | src/lib/socket.lib.ts:155-157 | a new Local peer for the client id with `onDestroy` and `onRemoteTrack` installed |
| HostClient.HostSignalingClient.AppendPeer | src/lib/socket.lib.ts:158 | the peer is appended to the registry, which keeps distinct peers |
| HostClient.HostSignalingClient.Announce | src/lib/socket.lib.ts:160 | one dispatch of the event, and nothing else changes |
| HostClient.HostSignalingClient.SetRoom | src/lib/socket.lib.ts:148-152 | the room id is set, then `OnChannelCreated` is dispatched; afterwards the `label` getter (socket.lib.ts:129-131, `Label`) returns that room id |
| HostClient.HostSignalingClient.RegisterPeer | src/lib/socket.lib.ts:155-160 | one new peer is appended, then `OnNewRtcPeer` is dispatched |
| HostClient.HostSignalingClient.ChangePeerState | src/lib/rtc.lib.ts:134-150 | only the peer at the position reacts; every other registry entry is unchanged |
| HostClient.HostSignalingClient.NegotiatePeer | src/lib/rtc.lib.ts:156-164 | only the peer at the position negotiates; every other registry entry is unchanged |
| HostClient.HostSignalingClient.ApplyAnswer | src/lib/socket.lib.ts:165 | only the chosen peer applies the answer; every other entry is unchanged |
| HostClient.HostSignalingClient.ApplyCandidates | src/lib/socket.lib.ts:169-174 | only the chosen peer applies the candidates; every other entry is unchanged |
| HostClient.HostSignalingClient.OnPeerTrack | src/lib/socket.lib.ts:180-189 | the loop leaves the registry as `RelayEffect` says (see `TrackRelayPairs`) |
| HostClient.HostSignalingClient.AttachStream | src/lib/socket.lib.ts:183-187 | only the peer at the position attaches the stream's tracks; every other registry entry is unchanged |
| HostClient.HostSignalingClient.OnPeerDestroyed | src/lib/socket.lib.ts:191-195 | new state is `PeerDestroyedEffect` (see `PeerDestroyedRemovesAll`) |
| HostClient.HostSignalingClient.SendRtcIceCandidate | src/lib/socket.lib.ts:197-207 | sends the candidate for the participant with the room id, even when there is none; a failed send reaches the caller |
| HostClient.HostSignalingClient.SendRtcOffer | src/lib/socket.lib.ts:209-221 | new state is `SendOfferEffect` (see `OfferNeedsRoom`); without a room id nothing fails, and with one the outcome is the outcome of sending the offer |
| HostClient.HostSignalingClient.CreateRtcChannel | src/lib/socket.lib.ts:223-228 | sends `CreateChannel` without a payload |
| HostClient.HostSignalingClient.OnPeerConnectionStateChange | src/lib/rtc.lib.ts:134-150 | new state is `PeerStateChangeEffect` (see `LostPeerLeavesRegistry`) |
| HostClient.HostSignalingClient.OnPeerNegotiationNeeded | src/lib/rtc.lib.ts:156-164 | new state is `PeerNegotiationEffect` (see `NegotiationSendsOffer`) |
| HostClient.HostSignalingClient.OnPeerIceCandidate | src/lib/rtc.lib.ts:40-44 | a gathered candidate is sent under the peer's id; the end of gathering changes nothing |
| HostClient.HostSignalingClient.OnPeerTrackEvent | src/lib/rtc.lib.ts:124-132 | a remote track is fanned out to the other peers |
| HostClient.HostSignalingClient.OnMessage | src/lib/socket.lib.ts:88-98 | a parsed frame is dispatched, and the router handles it when subscribed |
| ParticipantClient.CandidateOmitsClientId | src/lib/socket.lib.ts:287-296 | whatever id the peer names, the candidate message carries only the participant's own id and the one candidate |
| ParticipantClient.ClientAddedStartsPeer | src/lib/socket.lib.ts:252-257 | a non-empty `clientId` becomes the host's id and a new Remote peer replaces any old one; otherwise nothing changes |
| ParticipantClient.OfferAnsweredByPeer | src/lib/socket.lib.ts:258-264 | an offer is answered only by an existing peer: offer, answer, then local tracks; the answer leaves exactly when there is a local description and the socket is open |
| ParticipantClient.CandidatesReachPeer | src/lib/socket.lib.ts:265-271 | candidates reach the peer, in array order, only when there is one; nothing is sent |
| ParticipantClient.DeferredRegistrationSentOnOpen | src/lib/socket.lib.ts:298-308 | a deferred registration sends `NewClient` exactly once when the socket opens, after the handlers already waiting |
| ParticipantClient.PeerSignalingClient.constructor | src/lib/socket.lib.ts:236-246 | a new participant has no host id, no peer and only its router subscribed |
| ParticipantClient.PeerSignalingClient.HandleMessage | src/lib/socket.lib.ts:248-274 | new state is `HandleMessageEffect` (see the lemmas per message type) |
| ParticipantClient.PeerSignalingClient.SendRtcAnswer | src/lib/socket.lib.ts:276-285 | sends the answer with the participant's id and the recorded host id |
| ParticipantClient.PeerSignalingClient.SendRtcIceCandidate | src/lib/socket.lib.ts:287-296 | sends the candidate without a `clientId` |
| ParticipantClient.PeerSignalingClient.RegisterClient | src/lib/socket.lib.ts:298-317 | open socket: sends `NewClient` at once; otherwise subscribes a new handler that sends it to `OnSocketOpened` |
| ParticipantClient.PeerSignalingClient.OnPeerIceCandidate | src/lib/rtc.lib.ts:40-44 | a gathered candidate is sent; the end of gathering changes nothing |
| ParticipantClient.PeerSignalingClient.OnPeerConnectionStateChange | src/lib/rtc.lib.ts:188-199 | the peer reacts as `RemoteStateChange` says; nothing else changes |
| ParticipantClient.PeerSignalingClient.OnMessage | src/lib/socket.lib.ts:88-98 | a parsed frame is dispatched, and the router handles it when subscribed |

## Left out

- JSON text: frames arrive already parsed, and an unparsable frame is `None`. A JSON `null` field and a missing field are both `None`. So a `ChannelCreated` frame with `"id": null`, which the source accepts (it sets the room id to `null` and dispatches `OnChannelCreated`), changes nothing in the model.
- The WebSocket transport: `readyState` is a field and sending appends to `outbox`; the URL built from `window.location` is not modelled.
- Audio playback in the `track` handlers (`new Audio()`, `play()`) and console logging have no observable effect in the model.
- The alert and page reload of a lost Remote connection are the `reconnectRequested` flag.
- The STUN server list given to the engine is a constant of the engine, which is abstract.
- Asynchrony: each `async` handler runs as one atomic turn with the engine's answers as parameters, so interleavings of two handlers are not modelled. A rejected engine promise is not modelled.
- The peer's `onInit` dispatches 'negotiationneeded' inside the constructor; it is modelled as the separate event `OnPeerNegotiationNeeded`.
- Peer events name the peer by its registry position, so events from a peer that has already left the registry, or from a participant's replaced peer, are not modelled.
- Handlers other than the router and the deferred registration are opaque callbacks: only their invocation is recorded.
- `event.streams[0]` of a track event is a parameter; a track event without streams is not modelled.
- The participant's `NewOffer` without a payload throws inside its async handler; the model keeps the state unchanged.
- HostClient.HandleMessageEffect: a `ClientAdded` without a payload makes the host's router throw when it reads `clientId` (socket.lib.ts:155). The throw stops the dispatch before the `OnSocketMessage` handlers after the router, and `onMessage` catches it. The model leaves the state unchanged and still logs every handler as called.
- HostClient.HandleMessageEffect: when a nested dispatch (`OnChannelCreated` after `ChannelCreated`, `OnNewRtcPeer` in `AddPeer`, `OnRtcPeerDisconnected` in `PeerDestroyedEffect`) fails on a send, the failure ends that dispatch and its outcome is dropped. In the source the throw would also end `handleMessage` and skip the later `OnSocketMessage` handlers (or, for `OnRtcPeerDisconnected`, reach the peer's state-change handler). The model does not pass it on.
- HostClient.HostOnMessageEffect: the router's handling is placed after the whole dispatch log, not at the router's position in it, and it runs even when an earlier handler's send failed.
- ParticipantClient.PeerSignalingClient.OnMessage: the same ordering simplification as the host's `OnMessage`.
- HostClient.HostSignalingClient.OnMessage: the same ordering simplification as `HostOnMessageEffect`.
- HostClient.TrackRelayPairs: the fan-out is stated per peer; the interleaving of calls across peers is not a single log.
