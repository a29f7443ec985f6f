/**
 * The camera node's WebRTC bookkeeping (internal/pirtc/pirtc.go): a
 * reference counter around the single camera stream, the lazily opened
 * stream itself, and the registry of viewers keyed by their uuid.
 *
 * The camera, its tracks and the peer connections are opaque values from
 * the pion libraries. Each opaque value carries the outcome its `Close`
 * will report, and the camera and the offer/answer negotiation are given
 * to the operations that use them as parameters.
 */
module PiRtc {
  import opened Wrappers

  /** A camera track; closeFails is what its Close() reports. */
  datatype Track = Track(id: nat, closeFails: bool)

  /** The camera stream obtained from GetUserMedia. */
  datatype MediaStream = MediaStream(tracks: seq<Track>)

  /** A pion peer connection; closeFails is what its Close() reports. */
  datatype Peer = Peer(id: nat, closeFails: bool)

  /** webrtc.SDPType, whose zero value is Unknown. */
  datatype SdpType = Unknown | Offer | Pranswer | Answer | Rollback

  datatype SessionDescription = SessionDescription(typ: SdpType, sdp: string)

  /** What pion's Answer machinery yields once the stream is open and the viewer is known. */
  datatype Negotiation =
    | Negotiated(peer: Peer, local: SessionDescription)
    | NegotiationFailed

  datatype Error =
    | UserExist            // "USER EXIST"
    | UserNotFound         // "USER NOT FOUND"
    | UserNotExists        // "USER NOT EXISTS"
    | PeerCloseFailed      // the error of PeerConnection.Close
    | TrackCloseFailed     // the error of Track.Close
    | CameraUnavailable    // the error of GetUserMedia
    | SetupFailed          // an error of AddTransceiverFromTrack, SetRemoteDescription, CreateAnswer or SetLocalDescription

  /** The bit rate Init gives the VP8 encoder. */
  const VP8BitRate := 500_000

  /** ICE connection states that pion reports to the observer registered in Answer. */
  datatype IceConnectionState = IceNew | IceChecking | IceConnected | IceCompleted | IceDisconnected | IceFailed | IceClosed

  /** The index of the first track whose Close fails, if any. */
  function FirstFailingTrack(tracks: seq<Track>): (r: Option<nat>)
    ensures r.Some? ==> r.value < |tracks| && tracks[r.value].closeFails
    ensures r.Some? ==> forall j :: 0 <= j < r.value ==> !tracks[j].closeFails
    ensures r.None? <==> forall j :: 0 <= j < |tracks| ==> !tracks[j].closeFails
  {
    if |tracks| == 0 then None
    else if tracks[0].closeFails then Some(0)
    else match FirstFailingTrack(tracks[1..])
      case None => None
      case Some(i) => Some(i + 1)
  }

  /** The stream disableStream leaves behind: nil, unless some track fails to close. */
  function StreamAfterDisable(s: MediaStream): (r: Option<MediaStream>)
    ensures r.None? <==> forall j :: 0 <= j < |s.tracks| ==> !s.tracks[j].closeFails
    ensures r.Some? ==> r == Some(s)
  {
    if FirstFailingTrack(s.tracks).None? then None else Some(s)
  }

  /** Whether removing a registry entry goes ahead: a nil entry, or a peer that closes cleanly. */
  predicate EntryCloses(entry: Option<Peer>)
  {
    entry.None? || !entry.value.closeFails
  }

  /**
   * CreateSessionDescription: the four known type names map to their SDP
   * types, every other string leaves the type at its zero value, and the
   * SDP text is carried over unchanged.
   */
  function CreateSessionDescription(typeSd: string, sdp: string): (sd: SessionDescription)
    ensures sd.sdp == sdp
    ensures sd.typ == Offer <==> typeSd == "offer"
    ensures sd.typ == Answer <==> typeSd == "answer"
    ensures sd.typ == Rollback <==> typeSd == "rollback"
    ensures sd.typ == Pranswer <==> typeSd == "pranswer"
    ensures sd.typ == Unknown <==> typeSd !in {"offer", "answer", "rollback", "pranswer"}
  {
    var t :=
      if typeSd == "offer" then Offer
      else if typeSd == "answer" then Answer
      else if typeSd == "rollback" then Rollback
      else if typeSd == "pranswer" then Pranswer
      else Unknown;
    SessionDescription(t, sdp)
  }

  /** SDPType.String(), which the offer-sd handler sends back as the answer's "type"; the name reads back as t. */
  function SdpTypeName(t: SdpType): (name: string)
    ensures CreateSessionDescription(name, "").typ == t
  {
    match t
    case Offer => "offer"
    case Pranswer => "pranswer"
    case Answer => "answer"
    case Rollback => "rollback"
    case Unknown => "unknown"
  }

  /** Every SDP type, Unknown included, survives being named and parsed back with its SDP text. */
  lemma SdpTypeNameRoundTrip(t: SdpType, sdp: string)
    ensures CreateSessionDescription(SdpTypeName(t), sdp) == SessionDescription(t, sdp)
  {
  }

  /** A type name that parses to a known SDP type is exactly that type's name. */
  lemma CreateSessionDescriptionNames(typeSd: string, sdp: string)
    requires CreateSessionDescription(typeSd, sdp).typ != Unknown
    ensures SdpTypeName(CreateSessionDescription(typeSd, sdp).typ) == typeSd
  {
  }

  class PiRTC {
    var usageStreamCount: int
    var stream: Option<MediaStream>
    var connections: map<string, Option<Peer>>
    var bitRate: int

    /** The count is never negative: decrementStreamUsage clamps it at 0. */
    ghost predicate Valid()
      reads this
    {
      usageStreamCount >= 0
    }

    constructor Create(bitRate: int)
      ensures Valid()
      ensures usageStreamCount == 0 && stream == None && connections == map[]
      ensures this.bitRate == bitRate
    {
      usageStreamCount := 0;
      stream := None;
      connections := map[];
      this.bitRate := bitRate;
    }

    /**
     * Init: fails when the VP8 encoder parameters cannot be built; otherwise
     * a fresh node with no stream users, no stream, no viewers, and the
     * encoder bit rate set to 500000.
     */
    static method Init(vp8ParamsOk: bool) returns (p: PiRTC?)
      ensures vp8ParamsOk <==> p != null
      ensures p != null ==> fresh(p) && p.Valid()
      ensures p != null ==> p.usageStreamCount == 0 && p.stream == None && p.connections == map[]
      ensures p != null ==> p.bitRate == VP8BitRate
    {
      if !vp8ParamsOk {
        return null;
      }
      p := new PiRTC.Create(VP8BitRate);
    }

    /** NewUser: registers uuid with no connection yet, or reports that it is already known. */
    method NewUser(uuid: string) returns (err: Option<Error>)
      modifies this`connections
      ensures uuid in old(connections) ==> err == Some(UserExist) && connections == old(connections)
      ensures uuid !in old(connections) ==> err == None && connections == old(connections)[uuid := None]
    {
      if uuid in connections {
        return Some(UserExist);
      }
      connections := connections[uuid := None];
      err := None;
    }

    /**
     * UserDisconnect: an unknown uuid is reported; a peer whose Close fails
     * makes it return that error with the entry still in place; otherwise
     * exactly that entry is removed.
     */
    method UserDisconnect(uuid: string) returns (err: Option<Error>)
      modifies this`connections
      ensures uuid !in old(connections) ==> err == Some(UserNotFound) && connections == old(connections)
      ensures uuid in old(connections) && !EntryCloses(old(connections)[uuid]) ==>
                err == Some(PeerCloseFailed) && connections == old(connections)
      ensures uuid in old(connections) && EntryCloses(old(connections)[uuid]) ==>
                err == None && connections == old(connections) - {uuid}
    {
      if uuid !in connections {
        return Some(UserNotFound);
      }
      var entry := connections[uuid];
      if entry.Some? {
        if entry.value.closeFails {
          return Some(PeerCloseFailed);
        }
        connections := connections[uuid := None];
      }
      connections := connections - {uuid};
      err := None;
    }

    /**
     * enableStream: opens the camera only when there is no stream; a stream
     * that is already open is kept as it is, so a second call changes nothing.
     * `camera` is what GetUserMedia returns for the 1280x720 I420 request.
     */
    method EnableStream(camera: Option<MediaStream>) returns (err: Option<Error>)
      modifies this`stream
      ensures old(stream).Some? ==> stream == old(stream) && err == None
      ensures old(stream).None? ==> stream == camera
      ensures old(stream).None? ==> (err == Some(CameraUnavailable) <==> camera.None?)
      ensures err.Some? ==> err == Some(CameraUnavailable)
    {
      if stream.None? {
        stream := camera;
        if camera.None? {
          return Some(CameraUnavailable);
        }
      }
      err := None;
    }

    /**
     * disableStream: closes the tracks in order and stops at the first one
     * whose Close fails, keeping the stream; when all close, the stream is
     * dropped. `closed` lists the tracks that were closed. The stream must
     * be open: the source calls a method on it.
     */
    method DisableStream() returns (err: Option<Error>, closed: seq<Track>)
      requires stream.Some?
      modifies this`stream
      ensures var tracks := old(stream).value.tracks;
              match FirstFailingTrack(tracks)
              case None => err == None && stream == None && closed == tracks
              case Some(i) => err == Some(TrackCloseFailed) && stream == old(stream) && closed == tracks[..i]
      ensures stream == StreamAfterDisable(old(stream).value)
    {
      var tracks := stream.value.tracks;
      closed := [];
      var i := 0;
      while i < |tracks|
        invariant 0 <= i <= |tracks|
        invariant closed == tracks[..i]
        invariant forall j :: 0 <= j < i ==> !tracks[j].closeFails
      {
        if tracks[i].closeFails {
          return Some(TrackCloseFailed), closed;
        }
        closed := closed + [tracks[i]];
        i := i + 1;
      }
      stream := None;
      err := None;
    }

    /** incrementStreamUsage: one more user of the stream. */
    method IncrementStreamUsage()
      requires Valid()
      modifies this`usageStreamCount
      ensures Valid()
      ensures usageStreamCount == old(usageStreamCount) + 1
    {
      usageStreamCount := usageStreamCount + 1;
    }

    /**
     * decrementStreamUsage: one user fewer, clamped at 0; whenever the count
     * ends at 0 the stream is disabled. The stream must then be open.
     */
    method DecrementStreamUsage()
      requires Valid()
      requires usageStreamCount <= 1 ==> stream.Some?
      modifies this`usageStreamCount, this`stream
      ensures Valid()
      ensures usageStreamCount == if old(usageStreamCount) > 0 then old(usageStreamCount) - 1 else 0
      ensures usageStreamCount > 0 ==> stream == old(stream)
      ensures usageStreamCount == 0 ==> stream == StreamAfterDisable(old(stream).value)
    {
      usageStreamCount := usageStreamCount - 1;
      if usageStreamCount < 0 {
        usageStreamCount := 0;
      }
      if usageStreamCount == 0 {
        var _, _ := DisableStream();
      }
    }

    /**
     * The bookkeeping of Answer. The usage count is raised first and is not
     * rolled back on any error. A camera that cannot be opened, an unknown
     * uuid and a failed negotiation each leave the registry unchanged; on
     * success the uuid maps to the new peer and the peer's local description
     * is returned.
     */
    method Answer(uuid: string, offer: SessionDescription, camera: Option<MediaStream>, negotiation: Negotiation)
      returns (r: Result<SessionDescription, Error>)
      requires Valid()
      modifies this`usageStreamCount, this`stream, this`connections
      ensures Valid()
      ensures usageStreamCount == old(usageStreamCount) + 1
      ensures stream == if old(stream).Some? then old(stream) else camera
      ensures old(stream).None? && camera.None? ==> r == Failure(CameraUnavailable) && connections == old(connections)
      ensures stream.Some? && uuid !in old(connections) ==> r == Failure(UserNotExists) && connections == old(connections)
      ensures stream.Some? && uuid in old(connections) && negotiation.NegotiationFailed? ==>
                r == Failure(SetupFailed) && connections == old(connections)
      ensures stream.Some? && uuid in old(connections) && negotiation.Negotiated? ==>
                r == Success(negotiation.local) && connections == old(connections)[uuid := Some(negotiation.peer)]
    {
      IncrementStreamUsage();
      var err := EnableStream(camera);
      if err.Some? {
        return Failure(err.value);
      }
      if uuid !in connections {
        return Failure(UserNotExists);
      }
      match negotiation
      case NegotiationFailed =>
        return Failure(SetupFailed);
      case Negotiated(peer, local) =>
        connections := connections[uuid := Some(peer)];
        return Success(local);
    }

    /**
     * The ICE observer Answer registers: on Disconnected or Failed the peer
     * is closed (its entry stays in the registry); on Closed one stream user
     * is released. Other states change nothing.
     */
    method OnIceConnectionStateChange(state: IceConnectionState)
      requires Valid()
      requires state == IceClosed && usageStreamCount <= 1 ==> stream.Some?
      modifies this`usageStreamCount, this`stream
      ensures Valid()
      ensures state != IceClosed ==> usageStreamCount == old(usageStreamCount) && stream == old(stream)
      ensures state == IceClosed ==> usageStreamCount == if old(usageStreamCount) > 0 then old(usageStreamCount) - 1 else 0
      ensures state == IceClosed && usageStreamCount > 0 ==> stream == old(stream)
      ensures state == IceClosed && usageStreamCount == 0 ==> stream == StreamAfterDisable(old(stream).value)
    {
      if state == IceClosed {
        DecrementStreamUsage();
      }
    }

    /**
     * The bracket that TakeShot and record put around their use of the
     * camera: enableStream (record ignores its error) and then
     * incrementStreamUsage. The matching release is DecrementStreamUsage.
     */
    method AcquireForCapture(camera: Option<MediaStream>)
      requires Valid()
      modifies this`usageStreamCount, this`stream
      ensures Valid()
      ensures usageStreamCount == old(usageStreamCount) + 1
      ensures stream == if old(stream).Some? then old(stream) else camera
    {
      var _ := EnableStream(camera);
      IncrementStreamUsage();
    }
  }

  /**
   * A viewer session from the clients' side: register "v1", answer its
   * offer with an open camera, then let pion report the connection closed.
   * The stream has exactly one user while the session lives and none after.
   */
  method ViewerSession(camera: MediaStream, offer: SessionDescription, peer: Peer, local: SessionDescription)
    returns (answered: Result<SessionDescription, Error>, usersDuring: int, usersAfter: int, streamAfter: Option<MediaStream>)
    ensures answered == Success(local)
    ensures usersDuring == 1 && usersAfter == 0
    ensures streamAfter == StreamAfterDisable(camera)
  {
    var p := PiRTC.Init(true);
    var err := p.NewUser("v1");
    assert err == None && p.connections == map["v1" := None];
    answered := p.Answer("v1", offer, Some(camera), Negotiated(peer, local));
    assert p.connections["v1"] == Some(peer);
    usersDuring := p.usageStreamCount;
    p.OnIceConnectionStateChange(IceClosed);
    usersAfter, streamAfter := p.usageStreamCount, p.stream;
  }
}
