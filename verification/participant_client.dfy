/**
 * The participant-side orchestrator (`PeerSignalingClient`): it knows its
 * own id, learns the host's id from `ClientAdded`, and owns at most one
 * Remote peer, which answers the host's offers.
 *
 * As for the host, the participant is a signaling client plus a router
 * subscribed to `OnSocketMessage`, and what it does is specified by functions
 * on `ParticipantState`: the signaling client's state, the host's id and the
 * state of the current peer, if any. The engine's answer to an offer (the
 * answer it creates, the resulting local description, the microphone stream)
 * is a parameter of the message handler.
 */
module ParticipantClient {
  import opened Wrappers
  import opened RtcLib
  import opened Signaling

  /** The observable state of a participant. */
  datatype ParticipantState = ParticipantState(client: ClientState, peerId: Option<string>, peer: Option<PeerState>)

  /** The wrapper state of a Remote peer just created: no channel, no listener, no call. */
  const NewRemotePeer: PeerState := PeerState([], false, false, false, false, [])

  // ---------------------------------------------------------------------------
  // outbound messages

  /** `registerClient`'s message. */
  function NewClientMessage(id: string): Message {
    Message(NewClient, Some(Payload(Some(id), None, None, None, None)))
  }

  /** `sendRtcAnswer`'s message: the participant's id, the host's id and the answer's SDP. */
  function AnswerMessage(id: string, peerId: Option<string>, sdp: string): Message {
    Message(NewAnswer, Some(Payload(Some(id), peerId, None, Some(sdp), None)))
  }

  /** The participant's `sendRtcIceCandidate` message, which carries no `clientId`. */
  function ParticipantCandidateMessage(id: string, c: Candidate): Message {
    Message(IceCandidate, Some(Payload(Some(id), None, None, None, Some([c]))))
  }

  /** `sendRtcAnswer(sdp)`. */
  function SendAnswerEffect(st: ParticipantState, id: string, sdp: string): ParticipantState {
    st.(client := SendEffect(st.client, AnswerMessage(id, st.peerId, sdp)).0)
  }

  /** The participant's `sendRtcIceCandidate`: the `clientId` it is given is not sent. */
  function SendCandidateEffect(st: ParticipantState, id: string, clientId: PeerId, c: Candidate): ParticipantState {
    st.(client := SendEffect(st.client, ParticipantCandidateMessage(id, c)).0)
  }

  /**
   * Whatever `clientId` the peer names, the candidate message the participant
   * sends is addressed by the participant's own id alone.
   */
  lemma CandidateOmitsClientId(st: ParticipantState, id: string, clientId: PeerId, c: Candidate)
    requires st.client.readyState == OPEN
    ensures var st' := SendCandidateEffect(st, id, clientId, c);
      |st'.client.outbox| == |st.client.outbox| + 1 &&
      var sent := st'.client.outbox[|st.client.outbox|];
      sent.kind == IceCandidate && sent.payload.Some? &&
      sent.payload.value.id == Some(id) && sent.payload.value.clientId.None? &&
      sent.payload.value.iceCandidates == Some([c])
  {
  }

  // ---------------------------------------------------------------------------
  // inbound messages

  /** A peer that applied an offer, created and applied an answer, and acquired local tracks. */
  function Answering(ps: PeerState, offer: Option<string>, answer: string, media: Option<MediaStream>): PeerState {
    ps.(calls := ps.calls + [SetRemoteDescription(Offer, offer), CreateAnswer, SetLocalDescription(answer)] +
                 AcquisitionCalls(media))
  }

  /**
   * The router (`handleMessage`) of participant `id`. `ClientAdded` with a
   * non-empty `clientId` records the host and replaces the peer with a new
   * Remote one; `NewOffer` is answered by the peer, if there is one, and the
   * answer is sent when the engine produced a local description (a missing
   * payload throws inside the handler and changes nothing); `IceCandidate`
   * candidates go to the peer, if there is one, in order.
   */
  function HandleMessageEffect(st: ParticipantState, id: string, m: Message, answer: string, local: Option<string>,
                               media: Option<MediaStream>): ParticipantState
  {
    match m.kind
    case ClientAdded =>
      if m.payload.Some? && Truthy(m.payload.value.clientId) then
        st.(peerId := m.payload.value.clientId, peer := Some(NewRemotePeer))
      else st
    case NewOffer =>
      if st.peer.Some? && m.payload.Some? then
        var st1 := st.(peer := Some(Answering(st.peer.value, m.payload.value.offer, answer, media)));
        if local.Some? then SendAnswerEffect(st1, id, local.value) else st1
      else st
    case IceCandidate =>
      if m.payload.Some? && m.payload.value.iceCandidates.Some? && st.peer.Some? then
        st.(peer := Some(st.peer.value.(calls := st.peer.value.calls + AddCandidateCalls(m.payload.value.iceCandidates.value))))
      else st
    case _ => st
  }

  /**
   * `ClientAdded` with a non-empty `clientId` records it as the host's id and
   * starts over with a new Remote peer, whatever peer there was; otherwise it
   * changes nothing. The socket is not used.
   */
  lemma ClientAddedStartsPeer(st: ParticipantState, id: string, m: Message, answer: string, local: Option<string>,
                              media: Option<MediaStream>)
    requires m.kind == ClientAdded
    ensures var st' := HandleMessageEffect(st, id, m, answer, local, media);
      st'.client == st.client &&
      (m.payload.Some? && Truthy(m.payload.value.clientId) ==>
         st'.peerId == m.payload.value.clientId && st'.peer == Some(NewRemotePeer)) &&
      (m.payload.None? || !Truthy(m.payload.value.clientId) ==> st' == st)
  {
  }

  /**
   * An offer is answered only by an existing peer: it applies the offer,
   * creates and applies the answer, then acquires local tracks, in that order,
   * and the answer goes back to the recorded host exactly when the engine
   * produced a local description and the socket is open. Without a peer, or
   * without a payload, nothing changes and nothing is sent.
   */
  lemma OfferAnsweredByPeer(st: ParticipantState, id: string, m: Message, answer: string, local: Option<string>,
                            media: Option<MediaStream>)
    requires m.kind == NewOffer
    ensures var st' := HandleMessageEffect(st, id, m, answer, local, media);
      st'.peerId == st.peerId &&
      (st.peer.None? || m.payload.None? ==> st' == st) &&
      (st.peer.Some? && m.payload.Some? ==>
         var before := st.peer.value.calls;
         var after := st'.peer.value.calls;
         st'.peer.Some? && |after| == |before| + 3 + |AcquisitionCalls(media)| &&
         after[..|before|] == before &&
         after[|before|] == SetRemoteDescription(Offer, m.payload.value.offer) &&
         after[|before| + 1] == CreateAnswer &&
         after[|before| + 2] == SetLocalDescription(answer) &&
         after[|before| + 3] == GetUserMedia &&
         (local.Some? && st.client.readyState == OPEN ==>
            st'.client.outbox == st.client.outbox + [AnswerMessage(id, st.peerId, local.value)]) &&
         (local.None? || st.client.readyState != OPEN ==> st'.client.outbox == st.client.outbox))
  {
    if st.peer.Some? && m.payload.Some? {
      var before := st.peer.value.calls;
      var three := [SetRemoteDescription(Offer, m.payload.value.offer), CreateAnswer, SetLocalDescription(answer)];
      var after := before + three + AcquisitionCalls(media);
      assert after[..|before|] == before;
      assert after[|before| + 3] == AcquisitionCalls(media)[0];
    }
  }

  /**
   * Candidates reach the peer, one `addIceCandidate` each in array order,
   * only when there is a peer; nothing is sent.
   */
  lemma CandidatesReachPeer(st: ParticipantState, id: string, m: Message, answer: string, local: Option<string>,
                            media: Option<MediaStream>)
    requires m.kind == IceCandidate
    ensures var st' := HandleMessageEffect(st, id, m, answer, local, media);
      st'.client == st.client && st'.peerId == st.peerId && st'.peer.Some? == st.peer.Some? &&
      (st.peer.Some? && m.payload.Some? && m.payload.value.iceCandidates.Some? ==>
         var cs := m.payload.value.iceCandidates.value;
         var before := st.peer.value.calls;
         |st'.peer.value.calls| == |before| + |cs| && st'.peer.value.calls[..|before|] == before &&
         forall t :: 0 <= t < |cs| ==> st'.peer.value.calls[|before| + t] == AddIceCandidate(cs[t])) &&
      (st.peer.None? || m.payload.None? || m.payload.value.iceCandidates.None? ==> st' == st)
  {
    if st.peer.Some? && m.payload.Some? && m.payload.value.iceCandidates.Some? {
      var cs := m.payload.value.iceCandidates.value;
      AddCandidateCallsAt(cs);
      var before := st.peer.value.calls;
      assert (before + AddCandidateCalls(cs))[..|before|] == before;
    }
  }

  // ---------------------------------------------------------------------------
  // registration

  lemma {:induction false} SendsAppend(hs: seq<Handler>, h: Handler)
    ensures Sends(hs + [h]) == Sends(hs) + Sends([h])
  {
    if hs == [] {
      assert [] + [h] == [h];
    } else {
      SendsAppend(hs[1..], h);
      assert (hs + [h])[1..] == hs[1..] + [h];
      Associative(if hs[0].action.Callback? then [] else [hs[0].action.message], Sends(hs[1..]), Sends([h]));
    }
  }

  /**
   * A registration deferred while the socket was not open sends the
   * participant's `NewClient` message exactly once, when the socket opens,
   * after the handlers already waiting for it have run.
   */
  lemma DeferredRegistrationSentOnOpen(st: ClientState, id: string, h: Handler)
    requires Total(st.handlers) && st.readyState != OPEN
    requires h.action == SendOnInvoke(NewClientMessage(id))
    requires forall g :: g in st.handlers[OnSocketOpened] ==> g.action.Callback?
    ensures var done := DispatchEffect(SubscribeEffect(st, OnSocketOpened, h).(readyState := OPEN), OnSocketOpened, NoData);
      done.1 == Pass &&
      done.0.outbox == st.outbox + [NewClientMessage(id)] &&
      done.0.invocations == st.invocations + Invocations(st.handlers[OnSocketOpened], OnSocketOpened, NoData) +
                              [Invocation(h, OnSocketOpened, NoData)]
  {
    var hs := st.handlers[OnSocketOpened];
    var st1 := SubscribeEffect(st, OnSocketOpened, h).(readyState := OPEN);
    DeliverOpen(st1, hs + [h], OnSocketOpened, NoData);
    NoSends(hs);
    SendsAppend(hs, h);
    assert Sends([h]) == [NewClientMessage(id)];
    assert Invocations(hs + [h], OnSocketOpened, NoData) ==
           Invocations(hs, OnSocketOpened, NoData) + [Invocation(h, OnSocketOpened, NoData)];
    Associative(st.invocations, Invocations(hs, OnSocketOpened, NoData), [Invocation(h, OnSocketOpened, NoData)]);
  }

  // ---------------------------------------------------------------------------
  // the participant object

  class PeerSignalingClient {
    const signaling: SignalingClient
    const router: Handler
    const id: string
    var peerId: Option<string>
    var peer: RtcPeer?

    ghost function State(): ParticipantState
      reads this, signaling, peer
    {
      ParticipantState(signaling.State(), peerId, if peer == null then None else Some(peer.State()))
    }

    /** The router is a plain callback; the peer, once there, is a Remote wrapper carrying the participant's id. */
    ghost predicate Valid()
      reads this, signaling, peer
    {
      signaling.Valid() && router.action.Callback? &&
      (peer != null ==> peer.role == Remote && peer.id == Some(id) && Truthy(peerId))
    }

    /** A participant with no host and no peer whose router listens for frames. */
    constructor (id: string)
      ensures Valid() && fresh(signaling) && fresh(router) && this.id == id
      ensures State() == ParticipantState(ClientState(EmptyRegistry()[OnSocketMessage := [router]], CONNECTING, [], []), None, None)
    {
      var client := new SignalingClient();
      var h := new Handler(Callback);
      signaling := client;
      router := h;
      this.id := id;
      peerId := None;
      peer := null;
      new;
      signaling.Subscribe(OnSocketMessage, router);
      assert EmptyRegistry()[OnSocketMessage] + [router] == [router];
    }

    method HandleMessage(m: Message, answer: string, local: Option<string>, media: Option<MediaStream>)
      requires Valid()
      modifies this, signaling, peer
      ensures Valid()
      ensures State() == HandleMessageEffect(old(State()), id, m, answer, local, media)
    {
      match m.kind {
        case ClientAdded =>
          if m.payload.Some? && Truthy(m.payload.value.clientId) {
            peerId := m.payload.value.clientId;
            peer := new RtcPeer(Remote, Some(id));
          }
        case NewOffer =>
          if peer != null && m.payload.Some? {
            var session := peer.HandleIncomingOffer(m.payload.value.offer, answer, local, media);
            if session.Some? {
              var _ := SendRtcAnswer(session.value);
            }
          }
        case IceCandidate =>
          if m.payload.Some? && m.payload.value.iceCandidates.Some? && peer != null {
            peer.AddIceCandidates(m.payload.value.iceCandidates.value);
          }
        case _ =>
      }
    }

    /** `sendRtcAnswer(sdp)`; a failed send is not caught here. */
    method SendRtcAnswer(sdp: string) returns (r: Outcome<TransportError>)
      requires Valid()
      modifies signaling
      ensures Valid()
      ensures State() == SendAnswerEffect(old(State()), id, sdp)
      ensures r == SendEffect(old(signaling.State()), AnswerMessage(id, peerId, sdp)).1
    {
      r := signaling.Send(AnswerMessage(id, peerId, sdp));
    }

    /** `sendRtcIceCandidate(clientId, candidate)`. */
    method SendRtcIceCandidate(clientId: PeerId, candidate: Candidate) returns (r: Outcome<TransportError>)
      requires Valid()
      modifies signaling
      ensures Valid()
      ensures State() == SendCandidateEffect(old(State()), id, clientId, candidate)
      ensures r == SendEffect(old(signaling.State()), ParticipantCandidateMessage(id, candidate)).1
    {
      r := signaling.Send(ParticipantCandidateMessage(id, candidate));
    }

    /**
     * `registerClient()`: on an open socket the `NewClient` message is sent
     * at once; otherwise a new handler (`registration`) that sends it is
     * subscribed to `OnSocketOpened`.
     */
    method RegisterClient() returns (r: Outcome<TransportError>, ghost registration: Handler?)
      requires Valid()
      modifies signaling
      ensures Valid()
      ensures old(signaling.readyState) == OPEN ==>
        registration == null && (State().client, r) == SendEffect(old(State()).client, NewClientMessage(id)) &&
        State() == old(State()).(client := State().client)
      ensures old(signaling.readyState) != OPEN ==>
        registration != null && fresh(registration) && registration.action == SendOnInvoke(NewClientMessage(id)) &&
        r == Pass && State() == old(State()).(client := SubscribeEffect(old(State()).client, OnSocketOpened, registration))
    {
      if signaling.readyState != OPEN {
        var h := new Handler(SendOnInvoke(NewClientMessage(id)));
        signaling.Subscribe(OnSocketOpened, h);
        r, registration := Pass, h;
      } else {
        r := signaling.Send(NewClientMessage(id));
        registration := null;
      }
    }

    /** The peer gathered an ICE candidate (`None`: gathering finished). */
    method OnPeerIceCandidate(candidate: Option<Candidate>)
      requires Valid() && peer != null
      modifies signaling
      ensures Valid()
      ensures candidate.None? ==> State() == old(State())
      ensures candidate.Some? ==> State() == SendCandidateEffect(old(State()), id, peer.id, candidate.value)
    {
      var toSend := peer.OnIceCandidate(candidate);
      if toSend.Some? {
        var _ := SendRtcIceCandidate(toSend.value.0, toSend.value.1);
      }
    }

    /** The peer reports a new connection state. */
    method OnPeerConnectionStateChange(state: ConnectionState)
      requires Valid() && peer != null
      modifies peer
      ensures Valid()
      ensures State() == old(State()).(peer := Some(StateChangeEffect(Remote, old(peer.State()), state).0))
    {
      var _ := peer.OnConnectionStateChange(state);
    }

    /** A frame arrives on the participant's socket (`None`: it does not parse). */
    method OnMessage(frame: Option<Message>, answer: string, local: Option<string>, media: Option<MediaStream>)
      requires Valid()
      modifies this, signaling, peer
      ensures Valid()
      ensures frame.None? ==> State() == old(State())
      ensures frame.Some? && router !in old(signaling.handlers[OnSocketMessage]) ==>
        State() == old(State()).(client := OnMessageEffect(old(State()).client, frame))
      ensures frame.Some? && router in old(signaling.handlers[OnSocketMessage]) ==>
        State() == HandleMessageEffect(old(State()).(client := OnMessageEffect(old(State()).client, frame)),
                                       id, frame.value, answer, local, media)
    {
      var routed := frame.Some? && router in signaling.handlers[OnSocketMessage];
      signaling.OnMessage(frame);
      if routed {
        HandleMessage(frame.value, answer, local, media);
      }
    }
  }
}
