/**
 * The host-side orchestrator (`HostSignalingClient`): it owns one room id and
 * a registry of Local peers, one per participant, keyed by the participant's
 * client id.
 *
 * The host is a signaling client (`signaling`) plus its own message router
 * (`router`), the handler it subscribes to `OnSocketMessage` when it is
 * built. What the host does is specified by functions on `HostState`: the
 * signaling client's state, the room id and the registry as a sequence of
 * (id, peer state) entries. Events a peer raises (a connection-state change,
 * a negotiation request, a gathered ICE candidate, a remote track) are
 * methods of the host naming the peer by its registry position; the peer
 * reacts, and the host carries out the callback the peer asks for.
 */
module HostClient {
  import opened Wrappers
  import opened RtcLib
  import opened Signaling

  /** One registry entry: the peer's id and the state of its wrapper. */
  datatype PeerEntry = PeerEntry(id: PeerId, state: PeerState)

  /** The observable state of a host. */
  datatype HostState = HostState(client: ClientState, room: Option<string>, peers: seq<PeerEntry>)

  /** The wrapper state of a peer the host has just created and wired up. */
  const NewHostPeer: PeerState := PeerState([], true, true, true, false, [])

  // ---------------------------------------------------------------------------
  // the registry

  /** The ids of the registry, in registry order (`peersNames`). */
  function Ids(ps: seq<PeerEntry>): (r: seq<PeerId>)
    ensures |r| == |ps|
    ensures forall i :: 0 <= i < |ps| ==> r[i] == ps[i].id
  {
    seq(|ps|, i requires 0 <= i < |ps| => ps[i].id)
  }

  /** `peers.find((peer) => clientId === peer.id)`: the position of the first peer with that id. */
  function FirstWithId(ids: seq<PeerId>, cid: PeerId): (r: Option<nat>)
    ensures r.Some? ==> r.value < |ids| && ids[r.value] == cid
    ensures r.Some? ==> forall j :: 0 <= j < r.value ==> ids[j] != cid
    ensures r.None? <==> cid !in ids
  {
    if ids == [] then None
    else if ids[0] == cid then Some(0)
    else match FirstWithId(ids[1..], cid)
      case None => None
      case Some(k) => Some(k + 1)
  }

  /** `peers.filter((peer) => peer.id !== x)` on registry entries. */
  function WithoutId(ps: seq<PeerEntry>, x: PeerId): seq<PeerEntry> {
    if ps == [] then []
    else (if ps[0].id == x then [] else [ps[0]]) + WithoutId(ps[1..], x)
  }

  /** Removal keeps exactly the entries whose id differs from `x`. */
  lemma {:induction false} WithoutIdMembers(ps: seq<PeerEntry>, x: PeerId)
    ensures forall e :: e in WithoutId(ps, x) <==> e in ps && e.id != x
  {
    if ps != [] {
      WithoutIdMembers(ps[1..], x);
      assert ps == [ps[0]] + ps[1..];
    }
  }

  /** Removal keeps the remaining entries in registry order: it filters each part separately. */
  lemma {:induction false} WithoutIdSplits(a: seq<PeerEntry>, b: seq<PeerEntry>, x: PeerId)
    ensures WithoutId(a + b, x) == WithoutId(a, x) + WithoutId(b, x)
  {
    if a == [] {
      assert a + b == b;
    } else {
      WithoutIdSplits(a[1..], b, x);
      assert (a + b)[0] == a[0];
      assert (a + b)[1..] == a[1..] + b;
      Associative(if a[0].id == x then [] else [a[0]], WithoutId(a[1..], x), WithoutId(b, x));
    }
  }

  /** Removal drops every occurrence of the id and no other id. */
  lemma {:induction false} WithoutIdCounts(ps: seq<PeerEntry>, x: PeerId)
    ensures multiset(Ids(WithoutId(ps, x))) == multiset(Ids(ps))[x := 0]
  {
    if ps != [] {
      var rest := WithoutId(ps[1..], x);
      WithoutIdCounts(ps[1..], x);
      var m := multiset(Ids(ps[1..]));
      IdsHead(ps);
      if ps[0].id == x {
        assert WithoutId(ps, x) == rest;
        assert (multiset{x} + m)[x := 0] == m[x := 0];
      } else {
        var kept := [ps[0]] + rest;
        assert WithoutId(ps, x) == kept;
        IdsHead(kept);
        assert kept[1..] == rest;
        assert (multiset{ps[0].id} + m)[x := 0] == multiset{ps[0].id} + m[x := 0];
      }
    }
  }

  lemma IdsHead(ps: seq<PeerEntry>)
    requires ps != []
    ensures multiset(Ids(ps)) == multiset{ps[0].id} + multiset(Ids(ps[1..]))
  {
    assert Ids(ps) == [ps[0].id] + Ids(ps[1..]);
  }

  /** A second removal of the same id changes nothing. */
  lemma {:induction false} WithoutIdIdempotent(ps: seq<PeerEntry>, x: PeerId)
    ensures WithoutId(WithoutId(ps, x), x) == WithoutId(ps, x)
  {
    if ps != [] {
      WithoutIdIdempotent(ps[1..], x);
      var rest := WithoutId(ps[1..], x);
      if ps[0].id != x {
        assert ([ps[0]] + rest)[1..] == rest;
      } else {
        assert WithoutId(ps, x) == rest;
      }
    }
  }

  // ---------------------------------------------------------------------------
  // outbound messages

  /** `sendRtcOffer`'s message: the room, the participant and the offer's SDP. */
  function OfferMessage(room: string, clientId: PeerId, sdp: string): Message {
    Message(NewOffer, Some(Payload(Some(room), clientId, Some(sdp), None, None)))
  }

  /** The host's `sendRtcIceCandidate` message; the room id is sent even when there is none. */
  function HostCandidateMessage(room: Option<string>, clientId: PeerId, c: Candidate): Message {
    Message(IceCandidate, Some(Payload(room, clientId, None, None, Some([c]))))
  }

  /** `createRtcChannel`'s message, which has no payload. */
  const CreateChannelMessage: Message := Message(CreateChannel, None)

  /** `sendRtcOffer`: only a host with a (non-empty) room id sends an offer. */
  function SendOfferEffect(st: HostState, clientId: PeerId, sdp: string): HostState {
    if Truthy(st.room) then st.(client := SendEffect(st.client, OfferMessage(st.room.value, clientId, sdp)).0)
    else st
  }

  /** `sendRtcIceCandidate`. */
  function SendCandidateEffect(st: HostState, clientId: PeerId, c: Candidate): HostState {
    st.(client := SendEffect(st.client, HostCandidateMessage(st.room, clientId, c)).0)
  }

  /** `createRtcChannel`: asks the relay to open a room. */
  function CreateRtcChannelEffect(st: HostState): (HostState, Outcome<TransportError>) {
    var (client, r) := SendEffect(st.client, CreateChannelMessage);
    (st.(client := client), r)
  }

  /**
   * An offer leaves the host exactly when the host has a room id and its
   * socket is open; it carries the room id, the participant's id and the SDP.
   * Nothing else changes.
   */
  lemma OfferNeedsRoom(st: HostState, clientId: PeerId, sdp: string)
    ensures var st' := SendOfferEffect(st, clientId, sdp);
      st'.room == st.room && st'.peers == st.peers &&
      st'.client.handlers == st.client.handlers && st'.client.invocations == st.client.invocations &&
      (Truthy(st.room) && st.client.readyState == OPEN ==>
         st'.client.outbox == st.client.outbox + [OfferMessage(st.room.value, clientId, sdp)]) &&
      (!Truthy(st.room) || st.client.readyState != OPEN ==> st'.client.outbox == st.client.outbox)
  {
  }

  // ---------------------------------------------------------------------------
  // inbound messages

  /** A peer that applied a participant's answer, then acquired local tracks. */
  function Answered(e: PeerEntry, answer: string, media: Option<MediaStream>): PeerEntry {
    e.(state := e.state.(calls := e.state.calls + [SetRemoteDescription(Answer, Some(answer))] + AcquisitionCalls(media)))
  }

  /** A peer that applied the candidates `cs`, in order. */
  function WithCandidates(e: PeerEntry, cs: seq<Candidate>): PeerEntry {
    e.(state := e.state.(calls := e.state.calls + AddCandidateCalls(cs)))
  }

  /** `ClientAdded` with a payload: one new Local peer per message, then `OnNewRtcPeer`. */
  function AddPeer(st: HostState, clientId: PeerId): HostState
    requires Total(st.client.handlers)
  {
    st.(peers := st.peers + [PeerEntry(clientId, NewHostPeer)],
        client := DispatchEffect(st.client, OnNewRtcPeer, NoData).0)
  }

  /**
   * The router (`handleMessage`). `ChannelCreated` with an id stores it and
   * announces `OnChannelCreated`; `ClientAdded` registers a peer, and without
   * a payload throws before changing anything; a `NewAnswer` with a non-empty
   * answer and an `IceCandidate` go to the first peer with the message's
   * `clientId`; anything else is ignored.
   */
  function HandleMessageEffect(st: HostState, m: Message, media: Option<MediaStream>): HostState
    requires Total(st.client.handlers)
  {
    match m.kind
    case ChannelCreated =>
      if m.payload.Some? && m.payload.value.id.Some? then
        st.(room := m.payload.value.id, client := DispatchEffect(st.client, OnChannelCreated, NoData).0)
      else st
    case ClientAdded =>
      if m.payload.Some? then AddPeer(st, m.payload.value.clientId) else st
    case NewAnswer =>
      if m.payload.Some? && Truthy(m.payload.value.answer) then
        (match FirstWithId(Ids(st.peers), m.payload.value.clientId)
         case None => st
         case Some(k) => st.(peers := st.peers[k := Answered(st.peers[k], m.payload.value.answer.value, media)]))
      else st
    case IceCandidate =>
      var cid := if m.payload.Some? then m.payload.value.clientId else None;
      (match FirstWithId(Ids(st.peers), cid)
       case None => st
       case Some(k) =>
         if m.payload.Some? && m.payload.value.iceCandidates.Some? then
           st.(peers := st.peers[k := WithCandidates(st.peers[k], m.payload.value.iceCandidates.value)])
         else st)
    case _ => st
  }

  /**
   * `ChannelCreated` sets the room id to the payload's id, replacing any
   * earlier one, and announces it once; without an id it changes nothing.
   * The registry is never touched.
   */
  lemma ChannelCreatedSetsRoom(st: HostState, m: Message, media: Option<MediaStream>)
    requires Total(st.client.handlers) && m.kind == ChannelCreated
    requires forall h :: h in st.client.handlers[OnChannelCreated] ==> h.action.Callback?
    ensures var st' := HandleMessageEffect(st, m, media);
      st'.peers == st.peers &&
      (m.payload.Some? && m.payload.value.id.Some? ==>
         st'.room == m.payload.value.id &&
         st'.client == st.client.(invocations := st.client.invocations +
                                    Invocations(st.client.handlers[OnChannelCreated], OnChannelCreated, NoData))) &&
      (m.payload.None? || m.payload.value.id.None? ==> st' == st)
  {
    DeliverCallbacks(st.client, st.client.handlers[OnChannelCreated], OnChannelCreated, NoData);
  }

  /**
   * `ClientAdded` with a payload appends exactly one fresh peer with the
   * payload's `clientId` after the existing ones, which stay as they were,
   * and announces it once; without a payload nothing changes.
   */
  lemma ClientAddedAppendsOne(st: HostState, m: Message, media: Option<MediaStream>)
    requires Total(st.client.handlers) && m.kind == ClientAdded
    requires forall h :: h in st.client.handlers[OnNewRtcPeer] ==> h.action.Callback?
    ensures var st' := HandleMessageEffect(st, m, media);
      (m.payload.Some? ==>
         |st'.peers| == |st.peers| + 1 && st'.peers[..|st.peers|] == st.peers &&
         st'.peers[|st.peers|] == PeerEntry(m.payload.value.clientId, NewHostPeer) &&
         st'.room == st.room &&
         st'.client == st.client.(invocations := st.client.invocations +
                                    Invocations(st.client.handlers[OnNewRtcPeer], OnNewRtcPeer, NoData))) &&
      (m.payload.None? ==> st' == st)
  {
    DeliverCallbacks(st.client, st.client.handlers[OnNewRtcPeer], OnNewRtcPeer, NoData);
    if m.payload.Some? {
      var st' := HandleMessageEffect(st, m, media);
      assert st'.peers[..|st.peers|] == st.peers;
    }
  }

  /** `ClientAdded` does not de-duplicate: an id already registered is registered once more. */
  lemma ClientAddedKeepsDuplicates(st: HostState, clientId: PeerId)
    requires Total(st.client.handlers)
    ensures multiset(Ids(AddPeer(st, clientId).peers))[clientId] == multiset(Ids(st.peers))[clientId] + 1
  {
    assert Ids(AddPeer(st, clientId).peers) == Ids(st.peers) + [clientId];
  }

  /**
   * A `NewAnswer` changes at most one registry entry: the first whose id
   * equals the message's `clientId`, which applies the answer and then
   * acquires local tracks. When the answer is missing or empty, or no entry
   * has that id, nothing changes.
   */
  lemma AnswerReachesFirstMatch(st: HostState, m: Message, media: Option<MediaStream>)
    requires Total(st.client.handlers) && m.kind == NewAnswer
    ensures var st' := HandleMessageEffect(st, m, media);
      st'.client == st.client && st'.room == st.room && |st'.peers| == |st.peers| &&
      (forall j :: 0 <= j < |st.peers| && st'.peers[j] != st.peers[j] ==>
         m.payload.Some? && Truthy(m.payload.value.answer) &&
         st.peers[j].id == m.payload.value.clientId &&
         (forall i :: 0 <= i < j ==> st.peers[i].id != st.peers[j].id)) &&
      (forall j :: 0 <= j < |st.peers| && m.payload.Some? && Truthy(m.payload.value.answer) &&
                   st.peers[j].id == m.payload.value.clientId &&
                   (forall i :: 0 <= i < j ==> st.peers[i].id != st.peers[j].id) ==>
         st'.peers[j] == Answered(st.peers[j], m.payload.value.answer.value, media)) &&
      (m.payload.None? || !Truthy(m.payload.value.answer) ==> st' == st)
  {
    if m.payload.Some? && Truthy(m.payload.value.answer) {
      var ids := Ids(st.peers);
      var cid := m.payload.value.clientId;
      match FirstWithId(ids, cid)
      case None =>
      case Some(k) =>
        forall j | 0 <= j < |st.peers| && st.peers[j].id == cid && (forall i :: 0 <= i < j ==> st.peers[i].id != st.peers[j].id)
          ensures j == k
        {
        }
    }
  }

  /**
   * An `IceCandidate` message changes at most one registry entry: the first
   * whose id equals the message's `clientId` (an absent `clientId` matches a
   * peer registered without one), which applies the candidates one by one in
   * array order. Without candidates, or without such a peer, nothing changes.
   */
  lemma CandidatesReachFirstMatch(st: HostState, m: Message, media: Option<MediaStream>)
    requires Total(st.client.handlers) && m.kind == IceCandidate
    ensures var st' := HandleMessageEffect(st, m, media);
      var cid := if m.payload.Some? then m.payload.value.clientId else None;
      st'.client == st.client && st'.room == st.room && |st'.peers| == |st.peers| &&
      (forall j :: 0 <= j < |st.peers| && st'.peers[j] != st.peers[j] ==>
         st.peers[j].id == cid && (forall i :: 0 <= i < j ==> st.peers[i].id != cid) &&
         m.payload.Some? && m.payload.value.iceCandidates.Some? &&
         CandidatesApplied(st.peers[j], st'.peers[j], m.payload.value.iceCandidates.value)) &&
      (forall j :: 0 <= j < |st.peers| && m.payload.Some? && m.payload.value.iceCandidates.Some? &&
                   st.peers[j].id == cid && (forall i :: 0 <= i < j ==> st.peers[i].id != cid) ==>
         CandidatesApplied(st.peers[j], st'.peers[j], m.payload.value.iceCandidates.value)) &&
      (m.payload.None? || m.payload.value.iceCandidates.None? ==> st' == st)
  {
    var cid := if m.payload.Some? then m.payload.value.clientId else None;
    match FirstWithId(Ids(st.peers), cid)
    case None =>
    case Some(k) =>
      if m.payload.Some? && m.payload.value.iceCandidates.Some? {
        var cs := m.payload.value.iceCandidates.value;
        var peers' := HandleMessageEffect(st, m, media).peers;
        CandidateCallsLayout(st.peers[k], cs);
        assert peers' == st.peers[k := WithCandidates(st.peers[k], cs)];
        forall j | 0 <= j < |st.peers| && peers'[j] != st.peers[j]
          ensures j == k
        {
        }
        forall j | 0 <= j < |st.peers| && st.peers[j].id == cid && (forall i :: 0 <= i < j ==> st.peers[i].id != cid)
          ensures j == k
        {
        }
      }
  }

  /**
   * `after` is the entry `before` once it applied the candidates `cs`: the
   * same id and wrapper state, its earlier calls kept, then one
   * `addIceCandidate` per candidate in array order.
   */
  predicate CandidatesApplied(before: PeerEntry, after: PeerEntry, cs: seq<Candidate>) {
    var calls := before.state.calls;
    after.id == before.id && after.state == before.state.(calls := after.state.calls) &&
    |after.state.calls| == |calls| + |cs| && after.state.calls[..|calls|] == calls &&
    forall t :: 0 <= t < |cs| ==> after.state.calls[|calls| + t] == AddIceCandidate(cs[t])
  }

  lemma CandidateCallsLayout(e: PeerEntry, cs: seq<Candidate>)
    ensures CandidatesApplied(e, WithCandidates(e, cs), cs)
  {
    AddCandidateCallsAt(cs);
    var after := e.state.calls + AddCandidateCalls(cs);
    assert after[..|e.state.calls|] == e.state.calls;
  }

  // ---------------------------------------------------------------------------
  // events raised by the host's peers

  /** A peer that attached every track of `stream` unless it is the peer `from` the stream came from. */
  function Relayed(e: PeerEntry, from: PeerId, stream: MediaStream): PeerEntry {
    if e.id != from then e.(state := e.state.(calls := e.state.calls + AddTrackCalls(stream.tracks, stream.streamId)))
    else e
  }

  /** The registry part-way through the fan-out: the first `n` entries have been visited. */
  function RelayedUpTo(ps: seq<PeerEntry>, n: nat, from: PeerId, stream: MediaStream): (r: seq<PeerEntry>)
    requires n <= |ps|
    ensures |r| == |ps|
    ensures n == |ps| ==> r == RelayEffect(ps, from, stream)
  {
    seq(|ps|, i requires 0 <= i < |ps| => if i < n then Relayed(ps[i], from, stream) else ps[i])
  }

  /** Visiting entry `n` relays to it and leaves every other entry as it was. */
  lemma RelayedUpToStep(ps: seq<PeerEntry>, n: nat, from: PeerId, stream: MediaStream)
    requires n < |ps|
    ensures RelayedUpTo(ps, 0, from, stream) == ps
    ensures RelayedUpTo(ps, n + 1, from, stream) ==
      RelayedUpTo(ps, n, from, stream)[n := Relayed(RelayedUpTo(ps, n, from, stream)[n], from, stream)]
  {
  }

  /** `onPeerTrack(from, stream)`: the registry after the fan-out. */
  function RelayEffect(ps: seq<PeerEntry>, from: PeerId, stream: MediaStream): (r: seq<PeerEntry>)
    ensures |r| == |ps|
    ensures forall i :: 0 <= i < |ps| ==> r[i] == Relayed(ps[i], from, stream)
  {
    seq(|ps|, i requires 0 <= i < |ps| => Relayed(ps[i], from, stream))
  }

  /**
   * Track relay: every peer whose id differs from `from` adds each track of
   * the stream once, in track order, after its earlier calls; the peers with
   * id `from` add none. Ids and the registry order are unchanged.
   */
  lemma TrackRelayPairs(ps: seq<PeerEntry>, from: PeerId, stream: MediaStream)
    ensures var r := RelayEffect(ps, from, stream);
      Ids(r) == Ids(ps) &&
      forall i :: 0 <= i < |ps| ==>
        (ps[i].id == from ==> r[i] == ps[i]) &&
        (ps[i].id != from ==>
           var before := ps[i].state.calls;
           r[i].state == ps[i].state.(calls := r[i].state.calls) &&
           |r[i].state.calls| == |before| + |stream.tracks| &&
           r[i].state.calls[..|before|] == before &&
           forall t :: 0 <= t < |stream.tracks| ==>
             r[i].state.calls[|before| + t] == AddTrack(stream.tracks[t], stream.streamId))
  {
    AddTrackCallsAt(stream.tracks, stream.streamId);
    var r := RelayEffect(ps, from, stream);
    forall i | 0 <= i < |ps| && ps[i].id != from
      ensures r[i].state.calls[..|ps[i].state.calls|] == ps[i].state.calls
    {
      assert r[i].state.calls == ps[i].state.calls + AddTrackCalls(stream.tracks, stream.streamId);
    }
  }

  /** `onPeerDestroyed(x)`: every peer with id `x` leaves the registry, then `OnRtcPeerDisconnected`. */
  function PeerDestroyedEffect(st: HostState, x: PeerId): HostState
    requires Total(st.client.handlers)
  {
    st.(peers := WithoutId(st.peers, x), client := DispatchEffect(st.client, OnRtcPeerDisconnected, NoData).0)
  }

  /**
   * Destroying `x` keeps exactly the entries with another id, in order, and
   * announces the departure once; doing it again leaves the registry as it
   * is but announces once more.
   */
  lemma PeerDestroyedRemovesAll(st: HostState, x: PeerId)
    requires Total(st.client.handlers)
    requires forall h :: h in st.client.handlers[OnRtcPeerDisconnected] ==> h.action.Callback?
    ensures var st' := PeerDestroyedEffect(st, x);
      var hs := st.client.handlers[OnRtcPeerDisconnected];
      (forall e :: e in st'.peers <==> e in st.peers && e.id != x) &&
      x !in Ids(st'.peers) &&
      st'.room == st.room &&
      st'.client == st.client.(invocations := st.client.invocations + Invocations(hs, OnRtcPeerDisconnected, NoData)) &&
      PeerDestroyedEffect(st', x).peers == st'.peers &&
      PeerDestroyedEffect(st', x).client ==
        st'.client.(invocations := st'.client.invocations + Invocations(hs, OnRtcPeerDisconnected, NoData))
  {
    var hs := st.client.handlers[OnRtcPeerDisconnected];
    WithoutIdMembers(st.peers, x);
    WithoutIdCounts(st.peers, x);
    WithoutIdIdempotent(st.peers, x);
    DeliverCallbacks(st.client, hs, OnRtcPeerDisconnected, NoData);
    var st' := PeerDestroyedEffect(st, x);
    DeliverCallbacks(st'.client, hs, OnRtcPeerDisconnected, NoData);
  }

  /**
   * A connection-state change of the peer at `k`: the peer reacts, and when
   * it closed on "disconnected" or "failed" the host drops every peer with its
   * id.
   */
  function PeerStateChangeEffect(st: HostState, k: nat, state: ConnectionState): HostState
    requires Total(st.client.handlers) && k < |st.peers|
  {
    var (ps, destroy) := StateChangeEffect(Local, st.peers[k].state, state);
    var st1 := st.(peers := st.peers[k := st.peers[k].(state := ps)]);
    if destroy then PeerDestroyedEffect(st1, st.peers[k].id) else st1
  }

  /**
   * A peer whose connection is lost or failed leaves the registry together
   * with every other peer sharing its id; "connected" only stops its
   * renegotiation; any other state changes nothing.
   */
  lemma LostPeerLeavesRegistry(st: HostState, k: nat, state: ConnectionState)
    requires Total(st.client.handlers) && k < |st.peers| && st.peers[k].state.onDestroySet
    ensures var st' := PeerStateChangeEffect(st, k, state);
      ((state == Disconnected || state == Failed) ==>
         st'.peers == WithoutId(st.peers, st.peers[k].id) && st.peers[k].id !in Ids(st'.peers)) &&
      (state == Connected ==>
         st'.peers == st.peers[k := st.peers[k].(state := st.peers[k].state.(negotiationListener := false))] &&
         st'.client == st.client) &&
      ((state == New || state == Connecting || state == Closed) ==> st' == st)
  {
    var x := st.peers[k].id;
    var (ps, destroy) := StateChangeEffect(Local, st.peers[k].state, state);
    LocalStateChange(st.peers[k].state, state);
    if destroy {
      var updated := st.peers[k := st.peers[k].(state := ps)];
      WithoutIdCounts(updated, x);
      WithoutIdIgnoresRemoved(st.peers, k, updated[k]);
      assert x !in multiset(Ids(WithoutId(updated, x)));
    }
  }

  /** What becomes of an entry that removal drops anyway does not matter to the result. */
  lemma {:induction false} WithoutIdIgnoresRemoved(ps: seq<PeerEntry>, k: nat, e: PeerEntry)
    requires k < |ps| && e.id == ps[k].id
    ensures WithoutId(ps[k := e], ps[k].id) == WithoutId(ps, ps[k].id)
  {
    if k == 0 {
      assert ps[k := e][1..] == ps[1..];
    } else {
      WithoutIdIgnoresRemoved(ps[1..], k - 1, e);
      assert ps[k := e][1..] == ps[1..][k - 1 := e];
    }
  }

  /**
   * A negotiation request from the peer at `k`: while its listener is
   * attached the peer produces an offer, and a non-null local description is
   * sent with `sendRtcOffer` under the peer's id.
   */
  function PeerNegotiationEffect(st: HostState, k: nat, offer: string, local: Option<string>): HostState
    requires k < |st.peers|
  {
    var (ps, toSend) := NegotiationEffect(st.peers[k].state, offer, local);
    var st1 := st.(peers := st.peers[k := st.peers[k].(state := ps)]);
    if toSend.Some? then SendOfferEffect(st1, st.peers[k].id, toSend.value) else st1
  }

  /**
   * A negotiating peer sends its offer to its own participant exactly when
   * its listener is attached, the engine produced a local description, the
   * host has a room id and the socket is open.
   */
  lemma NegotiationSendsOffer(st: HostState, k: nat, offer: string, local: Option<string>)
    requires k < |st.peers|
    ensures var st' := PeerNegotiationEffect(st, k, offer, local);
      (st.peers[k].state.negotiationListener && local.Some? && Truthy(st.room) && st.client.readyState == OPEN ==>
         st'.client.outbox == st.client.outbox + [OfferMessage(st.room.value, st.peers[k].id, local.value)]) &&
      (!(st.peers[k].state.negotiationListener && local.Some? && Truthy(st.room) && st.client.readyState == OPEN) ==>
         st'.client == st.client) &&
      (!st.peers[k].state.negotiationListener ==> st' == st)
  {
    var (ps, toSend) := NegotiationEffect(st.peers[k].state, offer, local);
    var st1 := st.(peers := st.peers[k := st.peers[k].(state := ps)]);
    if !st.peers[k].state.negotiationListener {
      assert st.peers[k].(state := ps) == st.peers[k];
    }
    if toSend.Some? {
      OfferNeedsRoom(st1, st.peers[k].id, toSend.value);
    }
  }

  /** A candidate gathered by the peer at `k` is sent under that peer's id. */
  function PeerIceCandidateEffect(st: HostState, k: nat, candidate: Option<Candidate>): HostState
    requires k < |st.peers|
  {
    if candidate.Some? then SendCandidateEffect(st, st.peers[k].id, candidate.value) else st
  }

  /** A remote track received by the peer at `k` is relayed to the other peers when `onRemoteTrack` is set. */
  function PeerTrackEffect(st: HostState, k: nat, stream: MediaStream): HostState
    requires k < |st.peers|
  {
    if st.peers[k].state.onRemoteTrackSet then st.(peers := RelayEffect(st.peers, st.peers[k].id, stream)) else st
  }

  /**
   * A frame on the host's socket: the signaling client dispatches it, and
   * the router, when subscribed, handles the parsed message.
   */
  function HostOnMessageEffect(st: HostState, router: Handler, frame: Option<Message>, media: Option<MediaStream>): HostState
    requires Total(st.client.handlers)
  {
    match frame
    case None => st
    case Some(m) =>
      var st1 := st.(client := OnMessageEffect(st.client, frame));
      if router in st.client.handlers[OnSocketMessage] then HandleMessageEffect(st1, m, media) else st1
  }

  // ---------------------------------------------------------------------------
  // the host object

  /** No peer object appears twice in the registry. */
  predicate Distinct(ps: seq<RtcPeer>) {
    forall i, j :: 0 <= i < j < |ps| ==> ps[i] != ps[j]
  }

  /** The registry entries of the peer objects `ps`. */
  function Entries(ps: seq<RtcPeer>): (r: seq<PeerEntry>)
    reads set p | p in ps
    ensures |r| == |ps|
    ensures forall i :: 0 <= i < |ps| ==> r[i] == PeerEntry(ps[i].id, ps[i].State())
  {
    if ps == [] then [] else [PeerEntry(ps[0].id, ps[0].State())] + Entries(ps[1..])
  }

  /** `peers.filter((peer) => peer.id !== x)` on the peer objects. */
  function Drop(ps: seq<RtcPeer>, x: PeerId): (r: seq<RtcPeer>)
    ensures forall p :: p in r ==> p in ps
    ensures Distinct(ps) ==> Distinct(r)
  {
    if ps == [] then []
    else
      var rest := Drop(ps[1..], x);
      var r := (if ps[0].id == x then [] else [ps[0]]) + rest;
      assert Distinct(ps) ==> Distinct(r) by {
        if Distinct(ps) && ps[0].id != x {
          assert forall p :: p in rest ==> p in ps[1..];
          assert ps[0] !in ps[1..];
        }
      }
      r
  }

  lemma {:induction false} EntriesDrop(ps: seq<RtcPeer>, x: PeerId)
    ensures Entries(Drop(ps, x)) == WithoutId(Entries(ps), x)
  {
    if ps != [] {
      EntriesDrop(ps[1..], x);
      var head := if ps[0].id == x then [] else [ps[0]];
      assert Entries(head + Drop(ps[1..], x)) == Entries(head) + Entries(Drop(ps[1..], x));
      assert Entries(ps)[1..] == Entries(ps[1..]);
    }
  }

  lemma DistinctAppend(ps: seq<RtcPeer>, p: RtcPeer)
    requires Distinct(ps) && p !in ps
    ensures Distinct(ps + [p])
  {
  }

  lemma EntriesAppend(ps: seq<RtcPeer>, p: RtcPeer)
    ensures Entries(ps + [p]) == Entries(ps) + [PeerEntry(p.id, p.State())]
  {
  }

  class HostSignalingClient {
    const signaling: SignalingClient
    const router: Handler
    var peers: seq<RtcPeer>
    var id: Option<string>

    ghost function State(): HostState
      reads this, signaling, set p | p in peers
    {
      HostState(signaling.State(), id, Entries(peers))
    }

    /**
     * The router is a plain callback; every registered peer is a distinct
     * Local wrapper whose `onDestroy` and `onRemoteTrack` are installed.
     */
    ghost predicate Valid()
      reads this, signaling, set p | p in peers
    {
      signaling.Valid() && router.action.Callback? && Distinct(peers) &&
      forall p :: p in peers ==> p.role == Local && p.onDestroySet && p.onRemoteTrackSet
    }

    /** A host with no room and no peers whose router listens for frames. */
    constructor ()
      ensures Valid() && fresh(signaling) && fresh(router)
      ensures State() == HostState(ClientState(EmptyRegistry()[OnSocketMessage := [router]], CONNECTING, [], []), None, [])
    {
      var client := new SignalingClient();
      var h := new Handler(Callback);
      signaling := client;
      router := h;
      peers := [];
      id := None;
      new;
      signaling.Subscribe(OnSocketMessage, router);
      assert EmptyRegistry()[OnSocketMessage] + [router] == [router];
    }

    /** `peersNames`: the peers' ids, one per registry entry, in registry order. */
    function PeersNames(): (names: seq<PeerId>)
      reads this, set p | p in peers
      ensures names == Ids(Entries(peers))
    {
      var ps := peers;
      seq(|ps|, i requires 0 <= i < |ps| => ps[i].id)
    }

    /** `label`: the room id. */
    function Label(): (room: Option<string>)
      reads this
      ensures room == id
    {
      id
    }

    /** The position of the first peer with id `cid`, as `peers.find` looks for it. */
    method FindPeer(cid: PeerId) returns (k: Option<nat>)
      ensures k == FirstWithId(Ids(Entries(peers)), cid)
    {
      k := FirstWithId(PeersNames(), cid);
    }

    method HandleMessage(m: Message, media: Option<MediaStream>)
      requires Valid()
      modifies this, signaling, set p | p in peers
      ensures Valid()
      ensures State() == HandleMessageEffect(old(State()), m, media)
    {
      match m.kind {
        case ChannelCreated =>
          if m.payload.Some? && m.payload.value.id.Some? {
            SetRoom(m.payload.value.id.value);
          }
        case ClientAdded =>
          if m.payload.Some? {
            RegisterPeer(m.payload.value.clientId);
          }
        case NewAnswer =>
          if m.payload.Some? && Truthy(m.payload.value.answer) {
            var k := FindPeer(m.payload.value.clientId);
            if k.Some? {
              ApplyAnswer(k.value, m.payload.value.answer.value, media);
            }
          }
        case IceCandidate =>
          var cid := if m.payload.Some? then m.payload.value.clientId else None;
          var k := FindPeer(cid);
          if k.Some? && m.payload.Some? && m.payload.value.iceCandidates.Some? {
            ApplyCandidates(k.value, m.payload.value.iceCandidates.value);
          }
        case _ =>
      }
    }

    /** A new Local peer for `clientId` with `onDestroy` and `onRemoteTrack` installed. */
    static method WiredPeer(clientId: PeerId) returns (peer: RtcPeer)
      ensures fresh(peer)
      ensures peer.role == Local && peer.id == clientId && peer.State() == NewHostPeer
    {
      peer := new RtcPeer(Local, clientId);
      peer.onDestroySet := true;
      peer.onRemoteTrackSet := true;
    }

    method AppendPeer(peer: RtcPeer)
      requires Valid() && peer !in peers
      requires peer.role == Local && peer.onDestroySet && peer.onRemoteTrackSet
      modifies this
      ensures Valid()
      ensures State() == old(State()).(peers := old(State()).peers + [PeerEntry(peer.id, peer.State())])
    {
      EntriesAppend(peers, peer);
      DistinctAppend(peers, peer);
      peers := peers + [peer];
    }

    /** `dispatch(e)` without a payload; a failure inside it propagates to the caller's handler and is dropped there. */
    method Announce(e: EventKind)
      requires Valid()
      modifies signaling
      ensures Valid()
      ensures State() == old(State()).(client := DispatchEffect(old(State()).client, e, NoData).0)
    {
      var _ := signaling.Dispatch(e, NoData);
    }

    /** `ChannelCreated` with id `room`. */
    method SetRoom(room: string)
      requires Valid()
      modifies this, signaling
      ensures Valid()
      ensures State() == old(State()).(room := Some(room), client := DispatchEffect(old(signaling.State()), OnChannelCreated, NoData).0)
      ensures Label() == Some(room)
    {
      id := Some(room);
      Announce(OnChannelCreated);
    }

    /** `ClientAdded` with `clientId`: a new Local peer with both callbacks installed. */
    method RegisterPeer(clientId: PeerId)
      requires Valid()
      modifies this, signaling
      ensures Valid()
      ensures State() == AddPeer(old(State()), clientId)
    {
      var peer := WiredPeer(clientId);
      AppendPeer(peer);
      Announce(OnNewRtcPeer);
    }

    method ChangePeerState(k: nat, state: ConnectionState) returns (destroy: bool)
      requires Valid() && k < |peers|
      modifies peers[k]
      ensures Valid()
      ensures destroy == StateChangeEffect(Local, old(State()).peers[k].state, state).1
      ensures State() == old(State()).(peers := old(State()).peers[k := old(State()).peers[k].(
                state := StateChangeEffect(Local, old(State()).peers[k].state, state).0)])
    {
      ghost var before := Entries(peers);
      destroy := peers[k].OnConnectionStateChange(state);
      forall i | 0 <= i < |peers| && i != k
        ensures peers[i].State() == before[i].state
      {
        assert peers[i] != peers[k];
      }
      assert Entries(peers) == before[k := PeerEntry(before[k].id, peers[k].State())];
    }

    method NegotiatePeer(k: nat, offer: string, local: Option<string>) returns (toSend: Option<string>)
      requires Valid() && k < |peers|
      modifies peers[k]
      ensures Valid()
      ensures toSend == NegotiationEffect(old(State()).peers[k].state, offer, local).1
      ensures State() == old(State()).(peers := old(State()).peers[k := old(State()).peers[k].(
                state := NegotiationEffect(old(State()).peers[k].state, offer, local).0)])
    {
      ghost var before := Entries(peers);
      toSend := peers[k].OnNegotiationNeeded(offer, local);
      forall i | 0 <= i < |peers| && i != k
        ensures peers[i].State() == before[i].state
      {
        assert peers[i] != peers[k];
      }
      assert Entries(peers) == before[k := PeerEntry(before[k].id, peers[k].State())];
    }

    method ApplyAnswer(k: nat, answer: string, media: Option<MediaStream>)
      requires Valid() && k < |peers|
      modifies peers[k]
      ensures Valid()
      ensures State() == old(State()).(peers := old(State()).peers[k := Answered(old(State()).peers[k], answer, media)])
    {
      ghost var before := Entries(peers);
      peers[k].HandleIncomingAnswer(answer, media);
      forall i | 0 <= i < |peers| && i != k
        ensures peers[i].State() == before[i].state
      {
        assert peers[i] != peers[k];
      }
      assert Entries(peers) == before[k := PeerEntry(before[k].id, peers[k].State())];
    }

    method ApplyCandidates(k: nat, cs: seq<Candidate>)
      requires Valid() && k < |peers|
      modifies peers[k]
      ensures Valid()
      ensures State() == old(State()).(peers := old(State()).peers[k := WithCandidates(old(State()).peers[k], cs)])
    {
      ghost var before := Entries(peers);
      peers[k].AddIceCandidates(cs);
      forall i | 0 <= i < |peers| && i != k
        ensures peers[i].State() == before[i].state
      {
        assert peers[i] != peers[k];
      }
      assert Entries(peers) == before[k := WithCandidates(before[k], cs)];
    }

    /** `onPeerTrack(from, stream)`: every peer but those with id `from` attaches the stream's tracks. */
    method OnPeerTrack(from: PeerId, stream: MediaStream)
      requires Valid()
      modifies set p | p in peers
      ensures Valid()
      ensures State() == old(State()).(peers := RelayEffect(old(State()).peers, from, stream))
    {
      ghost var before := Entries(peers);
      var i := 0;
      while i < |peers|
        invariant 0 <= i <= |peers|
        invariant Valid()
        invariant State() == old(State()).(peers := RelayedUpTo(before, i, from, stream))
      {
        RelayedUpToStep(before, i, from, stream);
        if peers[i].id != from {
          AttachStream(i, from, stream);
        }
        i := i + 1;
      }
    }

    /** One step of the fan-out: the peer at `k`, whose id is not `from`, attaches the stream's tracks. */
    method AttachStream(k: nat, from: PeerId, stream: MediaStream)
      requires Valid() && k < |peers| && peers[k].id != from
      modifies peers[k]
      ensures Valid()
      ensures State() == old(State()).(peers := old(State()).peers[k := Relayed(old(State()).peers[k], from, stream)])
    {
      ghost var before := Entries(peers);
      peers[k].AddStreamTracks(stream);
      forall i | 0 <= i < |peers| && i != k
        ensures peers[i].State() == before[i].state
      {
        assert peers[i] != peers[k];
      }
      assert Entries(peers) == before[k := Relayed(before[k], from, stream)];
    }

    /** `onPeerDestroyed(x)`. */
    method OnPeerDestroyed(x: PeerId)
      requires Valid()
      modifies this, signaling
      ensures Valid()
      ensures State() == PeerDestroyedEffect(old(State()), x)
    {
      EntriesDrop(peers, x);
      peers := Drop(peers, x);
      Announce(OnRtcPeerDisconnected);
    }

    /** `sendRtcIceCandidate(clientId, candidate)`; a failed send is not caught here. */
    method SendRtcIceCandidate(clientId: PeerId, candidate: Candidate) returns (r: Outcome<TransportError>)
      requires Valid()
      modifies signaling
      ensures Valid()
      ensures State() == SendCandidateEffect(old(State()), clientId, candidate)
      ensures r == SendEffect(old(signaling.State()), HostCandidateMessage(id, clientId, candidate)).1
    {
      r := signaling.Send(HostCandidateMessage(id, clientId, candidate));
    }

    /** `sendRtcOffer(clientId, sdp)`. */
    method SendRtcOffer(clientId: PeerId, sdp: string) returns (r: Outcome<TransportError>)
      requires Valid()
      modifies signaling
      ensures Valid()
      ensures State() == SendOfferEffect(old(State()), clientId, sdp)
      ensures !Truthy(id) ==> r == Pass
      ensures Truthy(id) ==> r == SendEffect(old(signaling.State()), OfferMessage(id.value, clientId, sdp)).1
    {
      r := Pass;
      if Truthy(id) {
        r := signaling.Send(OfferMessage(id.value, clientId, sdp));
      }
    }

    /** `createRtcChannel()`. */
    method CreateRtcChannel() returns (r: Outcome<TransportError>)
      requires Valid()
      modifies signaling
      ensures Valid()
      ensures (State(), r) == CreateRtcChannelEffect(old(State()))
    {
      r := signaling.Send(CreateChannelMessage);
    }

    /** The peer at `k` reports a new connection state. */
    method OnPeerConnectionStateChange(k: nat, state: ConnectionState)
      requires Valid() && k < |peers|
      modifies this, signaling, peers[k]
      ensures Valid()
      ensures State() == PeerStateChangeEffect(old(State()), k, state)
    {
      var x := peers[k].id;
      var destroy := ChangePeerState(k, state);
      if destroy {
        OnPeerDestroyed(x);
      }
    }

    /** The peer at `k` needs (re)negotiation; `offer` and `local` are what its engine produces. */
    method OnPeerNegotiationNeeded(k: nat, offer: string, local: Option<string>)
      requires Valid() && k < |peers|
      modifies signaling, peers[k]
      ensures Valid()
      ensures State() == PeerNegotiationEffect(old(State()), k, offer, local)
    {
      var x := peers[k].id;
      var toSend := NegotiatePeer(k, offer, local);
      if toSend.Some? {
        var _ := SendRtcOffer(x, toSend.value);
      }
    }

    /** The peer at `k` gathered an ICE candidate (`None`: gathering finished). */
    method OnPeerIceCandidate(k: nat, candidate: Option<Candidate>)
      requires Valid() && k < |peers|
      modifies signaling
      ensures Valid()
      ensures State() == PeerIceCandidateEffect(old(State()), k, candidate)
    {
      var toSend := peers[k].OnIceCandidate(candidate);
      if toSend.Some? {
        var _ := SendRtcIceCandidate(toSend.value.0, toSend.value.1);
      }
    }

    /** The peer at `k` received a remote track of `stream`. */
    method OnPeerTrackEvent(k: nat, stream: MediaStream)
      requires Valid() && k < |peers|
      modifies set p | p in peers
      ensures Valid()
      ensures State() == PeerTrackEffect(old(State()), k, stream)
    {
      var relay := peers[k].OnTrack(stream);
      if relay.Some? {
        OnPeerTrack(relay.value.0, relay.value.1);
      }
    }

    /** A frame arrives on the host's socket (`None`: it does not parse). */
    method OnMessage(frame: Option<Message>, media: Option<MediaStream>)
      requires Valid()
      modifies this, signaling, set p | p in peers
      ensures Valid()
      ensures State() == HostOnMessageEffect(old(State()), router, frame, media)
    {
      var routed := frame.Some? && router in signaling.handlers[OnSocketMessage];
      signaling.OnMessage(frame);
      if routed {
        HandleMessage(frame.value, media);
      }
    }
  }
}
