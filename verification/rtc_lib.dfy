/**
 * The per-peer wrapper around one peer-connection engine (`RtcLib`, with its
 * two roles `RTCLocalPeer` and `RTCRemotePeer`).
 *
 * The engine itself is abstract: every call the wrapper makes into it (and
 * into the media layer, for `getUserMedia`) is appended to the peer's `calls`
 * log, and whatever the engine answers (the offer or answer it produces, the
 * resulting local description, the acquired microphone stream) is a
 * parameter of the handler that receives it. Each handler runs as one atomic
 * turn. Callbacks into the owning signaling client (`onDestroy`,
 * `onRemoteTrack`, `sendRtcOffer`, `sendRtcIceCandidate`) are returned to the
 * owner, which acts on them.
 */
module RtcLib {
  import opened Wrappers

  /** `RTCPeerTypeList`: the host side offers (Local), a participant answers (Remote). */
  datatype Role = Local | Remote

  /**
   * A peer id as the wrapper stores it. The host builds its peers from
   * `payload!.clientId!`, which is `undefined` when the message had no
   * `clientId`, so the id is optional; ids are compared with `===`.
   */
  type PeerId = Option<string>

  datatype SdpType = Offer | Answer

  /** An ICE candidate descriptor, opaque to the signaling layer. */
  datatype Candidate = Candidate(descriptor: string)

  datatype Track = Track(trackId: string)

  datatype MediaStream = MediaStream(streamId: string, tracks: seq<Track>)

  /** A data channel; the wrapper only ever inspects its label, `name` here. */
  datatype DataChannel = DataChannel(name: string)

  /** The engine's `connectionState`. */
  datatype ConnectionState = New | Connecting | Connected | Disconnected | Failed | Closed

  /** The error `createChannel` throws for a label that is already in use. */
  datatype ChannelError = DuplicateChannel(name: string)

  /** One call into the peer-connection engine or the media layer. */
  datatype EngineCall =
    | CreateOffer
    | CreateAnswer
    | SetLocalDescription(description: string)
    | SetRemoteDescription(kind: SdpType, sdp: Option<string>)
    | AddIceCandidate(candidate: Candidate)
    | CreateDataChannel(name: string)
    | AddTrack(track: Track, streamId: string)
    | GetUserMedia
    | Close

  /** True when some channel in `chs` carries `name` (the `channels.find` test). */
  function HasLabel(chs: seq<DataChannel>, name: string): (r: bool)
    ensures r <==> exists i :: 0 <= i < |chs| && chs[i].name == name
  {
    if chs == [] then false
    else if chs[0].name == name then true
    else
      var r := HasLabel(chs[1..], name);
      assert r ==> exists i :: 0 <= i < |chs| && chs[i].name == name by {
        if r {
          var i :| 0 <= i < |chs[1..]| && chs[1..][i].name == name;
          assert chs[i + 1].name == name;
        }
      }
      r
  }

  /** No two channels share a label. */
  predicate UniqueLabels(chs: seq<DataChannel>) {
    forall i, j :: 0 <= i < j < |chs| ==> chs[i].name != chs[j].name
  }

  /** The `addTrack` calls that attach `tracks` of stream `streamId`, one per track. */
  function AddTrackCalls(tracks: seq<Track>, streamId: string): seq<EngineCall> {
    if tracks == [] then []
    else AddTrackCalls(tracks[..|tracks| - 1], streamId) + [AddTrack(tracks[|tracks| - 1], streamId)]
  }

  /** Every track is added exactly once, in the stream's track order. */
  lemma {:induction false} AddTrackCallsAt(tracks: seq<Track>, streamId: string)
    ensures |AddTrackCalls(tracks, streamId)| == |tracks|
    ensures forall i :: 0 <= i < |tracks| ==> AddTrackCalls(tracks, streamId)[i] == AddTrack(tracks[i], streamId)
  {
    if tracks != [] {
      AddTrackCallsAt(tracks[..|tracks| - 1], streamId);
    }
  }

  /** The `addIceCandidate` calls that apply `cs`, one per candidate. */
  function AddCandidateCalls(cs: seq<Candidate>): seq<EngineCall> {
    if cs == [] then []
    else AddCandidateCalls(cs[..|cs| - 1]) + [AddIceCandidate(cs[|cs| - 1])]
  }

  /** Candidates are applied exactly once each, in array order. */
  lemma {:induction false} AddCandidateCallsAt(cs: seq<Candidate>)
    ensures |AddCandidateCalls(cs)| == |cs|
    ensures forall i :: 0 <= i < |cs| ==> AddCandidateCalls(cs)[i] == AddIceCandidate(cs[i])
  {
    if cs != [] {
      AddCandidateCallsAt(cs[..|cs| - 1]);
    }
  }

  /**
   * The calls of a best-effort local-track acquisition: `getUserMedia`, then,
   * when it yields a stream, one `addTrack` per track of it.
   */
  function AcquisitionCalls(media: Option<MediaStream>): seq<EngineCall> {
    [GetUserMedia] + match media
      case None => []
      case Some(s) => AddTrackCalls(s.tracks, s.streamId)
  }

  /** The observable state of one peer wrapper. */
  datatype PeerState = PeerState(
    channels: seq<DataChannel>,
    negotiationListener: bool,
    onDestroySet: bool,
    onRemoteTrackSet: bool,
    reconnectRequested: bool,
    calls: seq<EngineCall>)

  /** `createChannel(name)`: fails on a label in use, otherwise opens and records one channel. */
  function CreateChannelEffect(ps: PeerState, name: string): (PeerState, Result<DataChannel, ChannelError>) {
    if HasLabel(ps.channels, name) then (ps, Failure(DuplicateChannel(name)))
    else
      (ps.(channels := ps.channels + [DataChannel(name)], calls := ps.calls + [CreateDataChannel(name)]),
       Success(DataChannel(name)))
  }

  /**
   * `createChannel` fails exactly when some channel already has the label, and
   * then changes nothing; otherwise it appends exactly one channel with that
   * label and asks the engine for it.
   */
  lemma CreateChannelOutcome(ps: PeerState, name: string)
    ensures var (ps', r) := CreateChannelEffect(ps, name);
      (r.Failure? <==> exists i :: 0 <= i < |ps.channels| && ps.channels[i].name == name) &&
      (r.Failure? ==> ps' == ps && r.error == DuplicateChannel(name)) &&
      (r.Success? ==> r.value.name == name && |ps'.channels| == |ps.channels| + 1 &&
                      ps'.channels[..|ps.channels|] == ps.channels && ps'.channels[|ps.channels|] == r.value &&
                      ps'.calls == ps.calls + [CreateDataChannel(name)])
  {
    var (ps', r) := CreateChannelEffect(ps, name);
    if r.Success? {
      assert ps'.channels[..|ps.channels|] == ps.channels;
    }
  }

  /** Channels created only through `createChannel` keep pairwise distinct labels. */
  lemma CreateChannelKeepsLabelsUnique(ps: PeerState, name: string)
    ensures UniqueLabels(ps.channels) ==> UniqueLabels(CreateChannelEffect(ps, name).0.channels)
  {
    var chs := CreateChannelEffect(ps, name).0.channels;
    if UniqueLabels(ps.channels) && !HasLabel(ps.channels, name) {
      forall i, j | 0 <= i < j < |chs|
        ensures chs[i].name != chs[j].name
      {
        if j == |ps.channels| {
          assert chs[i] == ps.channels[i];
        }
      }
    }
  }

  /** The 'datachannel' event: only a Remote peer keeps the incoming channel, whatever its label. */
  function DataChannelEffect(role: Role, ps: PeerState, channel: DataChannel): PeerState {
    if role == Remote then ps.(channels := ps.channels + [channel]) else ps
  }

  /** A Local peer never adopts an incoming channel; a Remote peer adopts each one exactly once. */
  lemma IncomingChannelByRole(role: Role, ps: PeerState, channel: DataChannel)
    ensures var ps' := DataChannelEffect(role, ps, channel);
      (role == Local ==> ps' == ps) &&
      (role == Remote ==> ps'.channels == ps.channels + [channel] && ps'.calls == ps.calls &&
                          multiset(ps'.channels)[channel] == multiset(ps.channels)[channel] + 1)
  {
  }

  /**
   * The 'connectionstatechange' handler for a connection that reached
   * `state`; the boolean says whether the owner's `onDestroy(id)` is called.
   */
  function StateChangeEffect(role: Role, ps: PeerState, state: ConnectionState): (PeerState, bool) {
    match role
    case Local =>
      (match state
       case Connected => (ps.(negotiationListener := false), false)
       case Disconnected => (ps.(calls := ps.calls + [Close]), ps.onDestroySet)
       case Failed => (ps.(calls := ps.calls + [Close]), ps.onDestroySet)
       case _ => (ps, false))
    case Remote =>
      (match state
       case Closed => (ps.(calls := ps.calls + [Close], reconnectRequested := true), false)
       case Disconnected => (ps.(calls := ps.calls + [Close], reconnectRequested := true), false)
       case Failed => (ps.(calls := ps.calls + [Close], reconnectRequested := true), false)
       case _ => (ps, false))
  }

  /**
   * A Local peer: "connected" detaches the negotiation listener and nothing
   * else; "disconnected" and "failed" close the connection, and only they
   * notify the owner, exactly when `onDestroy` is installed; "new",
   * "connecting" and "closed" change nothing.
   */
  lemma LocalStateChange(ps: PeerState, state: ConnectionState)
    ensures var (ps', destroy) := StateChangeEffect(Local, ps, state);
      (destroy <==> (state == Disconnected || state == Failed) && ps.onDestroySet) &&
      (ps'.calls != ps.calls <==> state == Disconnected || state == Failed) &&
      (ps'.negotiationListener <==> ps.negotiationListener && state != Connected) &&
      (state == Connected ==> ps' == ps.(negotiationListener := false)) &&
      ((state == Disconnected || state == Failed) ==> ps' == ps.(calls := ps.calls + [Close])) &&
      ((state == New || state == Connecting || state == Closed) ==> ps' == ps)
  {
  }

  /**
   * A Remote peer: "closed", "disconnected" and "failed" close the connection
   * and request a reconnect; any other state changes nothing. It never calls
   * `onDestroy`.
   */
  lemma RemoteStateChange(ps: PeerState, state: ConnectionState)
    ensures var (ps', destroy) := StateChangeEffect(Remote, ps, state);
      !destroy &&
      ((state == Closed || state == Disconnected || state == Failed) ==>
         ps' == ps.(calls := ps.calls + [Close], reconnectRequested := true)) &&
      ((state == New || state == Connecting || state == Connected) ==> ps' == ps)
  {
  }

  /**
   * The 'negotiationneeded' listener: while attached it asks the engine for
   * an offer (`offer`), applies it and hands the resulting local description
   * (`local`) on for `sendRtcOffer`; a detached listener never runs.
   */
  function NegotiationEffect(ps: PeerState, offer: string, local: Option<string>): (PeerState, Option<string>) {
    if ps.negotiationListener then (ps.(calls := ps.calls + [CreateOffer, SetLocalDescription(offer)]), local)
    else (ps, None)
  }

  /** Once a Local peer has seen "connected", renegotiation neither calls the engine nor sends an offer. */
  lemma NoNegotiationAfterConnect(ps: PeerState, offer: string, local: Option<string>)
    ensures var connected := StateChangeEffect(Local, ps, Connected).0;
      NegotiationEffect(connected, offer, local) == (connected, None)
  {
  }

  /**
   * One peer wrapper. `negotiationListener` says whether the
   * 'negotiationneeded' listener is attached; `onDestroySet` and
   * `onRemoteTrackSet` whether the owner installed those callbacks;
   * `reconnectRequested` stands for the alert-and-reload of a Remote peer.
   */
  class RtcPeer {
    const role: Role
    const id: PeerId
    var channels: seq<DataChannel>
    var negotiationListener: bool
    var onDestroySet: bool
    var onRemoteTrackSet: bool
    var reconnectRequested: bool
    var calls: seq<EngineCall>

    function State(): PeerState
      reads this
    {
      PeerState(channels, negotiationListener, onDestroySet, onRemoteTrackSet, reconnectRequested, calls)
    }

    /** Only a Local peer listens for 'negotiationneeded'; nothing is called on the engine yet. */
    constructor (role: Role, id: PeerId)
      ensures this.role == role && this.id == id
      ensures State() == PeerState([], role == Local, false, false, false, [])
    {
      this.role := role;
      this.id := id;
      channels := [];
      negotiationListener := role == Local;
      onDestroySet := false;
      onRemoteTrackSet := false;
      reconnectRequested := false;
      calls := [];
    }

    /** Creates a channel labelled `name` unless one already has that label. */
    method CreateChannel(name: string := "default") returns (r: Result<DataChannel, ChannelError>)
      modifies this
      ensures (State(), r) == CreateChannelEffect(old(State()), name)
      ensures UniqueLabels(old(channels)) ==> UniqueLabels(channels)
    {
      CreateChannelKeepsLabelsUnique(State(), name);
      if HasLabel(channels, name) {
        return Failure(DuplicateChannel(name));
      }
      calls := calls + [CreateDataChannel(name)];
      channels := channels + [DataChannel(name)];
      r := Success(DataChannel(name));
    }

    /** An incoming data channel is kept only by a Remote peer. */
    method OnDataChannel(channel: DataChannel)
      modifies this
      ensures State() == DataChannelEffect(role, old(State()), channel)
    {
      if role == Remote {
        channels := channels + [channel];
      }
    }

    method AddTrackToConnection(track: Track, stream: MediaStream)
      modifies this
      ensures State() == old(State()).(calls := old(calls) + [AddTrack(track, stream.streamId)])
    {
      calls := calls + [AddTrack(track, stream.streamId)];
    }

    /** Adds every track of `stream`, in order. */
    method AddStreamTracks(stream: MediaStream)
      modifies this
      ensures State() == old(State()).(calls := old(calls) + AddTrackCalls(stream.tracks, stream.streamId))
    {
      var i := 0;
      while i < |stream.tracks|
        invariant 0 <= i <= |stream.tracks|
        invariant State() == old(State()).(calls := old(calls) + AddTrackCalls(stream.tracks[..i], stream.streamId))
      {
        assert stream.tracks[..i + 1][..i] == stream.tracks[..i];
        AddTrackToConnection(stream.tracks[i], stream);
        i := i + 1;
      }
      assert stream.tracks[..i] == stream.tracks;
    }

    method AddIceCandidate(candidate: Candidate)
      modifies this
      ensures State() == old(State()).(calls := old(calls) + [EngineCall.AddIceCandidate(candidate)])
    {
      calls := calls + [EngineCall.AddIceCandidate(candidate)];
    }

    /** Applies every candidate of `cs`, in array order. */
    method AddIceCandidates(cs: seq<Candidate>)
      modifies this
      ensures State() == old(State()).(calls := old(calls) + AddCandidateCalls(cs))
    {
      var i := 0;
      while i < |cs|
        invariant 0 <= i <= |cs|
        invariant State() == old(State()).(calls := old(calls) + AddCandidateCalls(cs[..i]))
      {
        assert cs[..i + 1][..i] == cs[..i];
        AddIceCandidate(cs[i]);
        i := i + 1;
      }
      assert cs[..i] == cs;
    }

    /**
     * Asks the engine for an offer (`offer`), applies it as the local
     * description and returns the resulting local description (`local`).
     */
    method CreateOffer(offer: string, local: Option<string>) returns (description: Option<string>)
      modifies this
      ensures description == local
      ensures State() == old(State()).(calls := old(calls) + [EngineCall.CreateOffer, SetLocalDescription(offer)])
    {
      calls := calls + [EngineCall.CreateOffer, SetLocalDescription(offer)];
      description := local;
    }

    method SetRemoteDescription(kind: SdpType, sdp: Option<string>)
      modifies this
      ensures State() == old(State()).(calls := old(calls) + [EngineCall.SetRemoteDescription(kind, sdp)])
    {
      calls := calls + [EngineCall.SetRemoteDescription(kind, sdp)];
    }

    /**
     * Asks the engine for an answer (`answer`), applies it as the local
     * description and returns the resulting local description (`local`).
     */
    method CreateAnswer(answer: string, local: Option<string>) returns (description: Option<string>)
      modifies this
      ensures description == local
      ensures State() == old(State()).(calls := old(calls) + [EngineCall.CreateAnswer, SetLocalDescription(answer)])
    {
      calls := calls + [EngineCall.CreateAnswer, SetLocalDescription(answer)];
      description := local;
    }

    /**
     * Best-effort: `media` is the stream `getUserMedia` yields, or None when
     * it fails; a failure adds no track and does not escape.
     */
    method AddLocalTracksToConnection(media: Option<MediaStream>)
      modifies this
      ensures State() == old(State()).(calls := old(calls) + AcquisitionCalls(media))
    {
      calls := calls + [GetUserMedia];
      if media.Some? {
        AddStreamTracks(media.value);
      }
    }

    /**
     * The 'icecandidate' event: a gathered candidate (`Some`) is handed to
     * the owner's `sendRtcIceCandidate` under this peer's id; the end of
     * gathering (`None`) is ignored.
     */
    method OnIceCandidate(candidate: Option<Candidate>) returns (toSend: Option<(PeerId, Candidate)>)
      ensures toSend.Some? <==> candidate.Some?
      ensures toSend.Some? ==> toSend.value == (id, candidate.value)
    {
      toSend := None;
      if candidate.Some? {
        toSend := Some((id, candidate.value));
      }
    }

    /**
     * The 'track' event with the event's first stream. Audio playback is not
     * modelled; a Local peer relays the stream to its owner's
     * `onRemoteTrack(id, stream)` when that callback is installed, a Remote
     * peer relays nothing.
     */
    method OnTrack(stream: MediaStream) returns (relay: Option<(PeerId, MediaStream)>)
      ensures relay.Some? <==> role == Local && onRemoteTrackSet
      ensures relay.Some? ==> relay.value == (id, stream)
    {
      relay := None;
      if role == Local && onRemoteTrackSet {
        relay := Some((id, stream));
      }
    }

    /** Detaches the 'negotiationneeded' listener. */
    method OnConnect()
      modifies this
      ensures State() == old(State()).(negotiationListener := false)
    {
      negotiationListener := false;
    }

    /**
     * Reacts to the engine's new connection state. A Local peer stops
     * renegotiating once connected and closes on "disconnected" or "failed",
     * returning whether `onDestroy(id)` must be called; a Remote peer closes
     * on "closed", "disconnected" or "failed" and asks for a reconnect.
     */
    method OnConnectionStateChange(state: ConnectionState) returns (destroy: bool)
      modifies this
      ensures State() == StateChangeEffect(role, old(State()), state).0
      ensures destroy == StateChangeEffect(role, old(State()), state).1
      ensures onDestroySet == old(onDestroySet) && onRemoteTrackSet == old(onRemoteTrackSet)
    {
      destroy := false;
      match role {
        case Local =>
          match state {
            case Connected =>
              OnConnect();
            case Disconnected | Failed =>
              calls := calls + [Close];
              destroy := onDestroySet;
            case _ =>
          }
        case Remote =>
          match state {
            case Closed | Disconnected | Failed =>
              calls := calls + [Close];
              reconnectRequested := true;
            case _ =>
          }
      }
    }

    /**
     * The 'negotiationneeded' listener: creates and applies an offer and
     * returns the local description to send with `sendRtcOffer`, if any. A
     * detached listener does nothing.
     */
    method OnNegotiationNeeded(offer: string, local: Option<string>) returns (toSend: Option<string>)
      modifies this
      ensures State() == NegotiationEffect(old(State()), offer, local).0
      ensures toSend == NegotiationEffect(old(State()), offer, local).1
      ensures onDestroySet == old(onDestroySet) && onRemoteTrackSet == old(onRemoteTrackSet)
    {
      toSend := None;
      if negotiationListener {
        toSend := CreateOffer(offer, local);
      }
    }

    /** Applies a participant's answer, then acquires and attaches local tracks. */
    method HandleIncomingAnswer(answer: string, media: Option<MediaStream>)
      modifies this
      ensures State() == old(State()).(calls := old(calls) +
        [EngineCall.SetRemoteDescription(Answer, Some(answer))] + AcquisitionCalls(media))
    {
      SetRemoteDescription(Answer, Some(answer));
      AddLocalTracksToConnection(media);
    }

    /**
     * Applies the host's offer, creates and applies an answer, acquires and
     * attaches local tracks, and returns the local description.
     */
    method HandleIncomingOffer(offer: Option<string>, answer: string, local: Option<string>, media: Option<MediaStream>)
      returns (session: Option<string>)
      modifies this
      ensures session == local
      ensures State() == old(State()).(calls := old(calls) +
        [EngineCall.SetRemoteDescription(Offer, offer), EngineCall.CreateAnswer, SetLocalDescription(answer)] +
        AcquisitionCalls(media))
    {
      SetRemoteDescription(Offer, offer);
      session := CreateAnswer(answer, local);
      AddLocalTracksToConnection(media);
    }
  }
}
