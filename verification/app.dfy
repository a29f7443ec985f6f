/**
 * The signalling handlers that cmd/app/main.go registers in createCallBacks.
 * They keep two tables keyed by the requester's uuid, the stop signal of
 * each running recording and the file it records to, and drive the viewer
 * registry of PiRtc.
 *
 * Messages sent to the signalling server, uploads, launching the recording
 * goroutine and closing its stop signal are outside effects: each handler
 * appends them, in order, to a trace. A stop signal is an opaque channel,
 * named by a number that no earlier signal used. The current time string
 * used to name a recording is an input.
 */
module App {
  import opened Wrappers
  import PiRtc

  /** An outside effect of a handler. */
  datatype Effect =
    | Emit(event: string, payload: map<string, string>)   // wsClient.EmitMessage
    | Upload(path: string)                                // utils.UploadVideo
    | LaunchRecord(path: string, stop: nat)               // go prtc.Record(dest, stopChan)
    | CloseStop(stop: nat)                                // close(stopChan)

  /** The parts of the environment the handlers read. */
  datatype Env = Env(videoPath: string, deviceUuid: string)

  /** stopRecordChans, videoPathMap, and the next unused stop-signal number. */
  datatype RecordTable = RecordTable(stopChans: map<string, nat>, paths: map<string, string>, nextChan: nat)

  const EmptyTable := RecordTable(map[], map[], 0)

  /** Both tables have the same keys, and every stop signal in use was handed out already. */
  predicate Consistent(t: RecordTable)
  {
    && t.stopChans.Keys == t.paths.Keys
    && forall k :: k in t.stopChans ==> t.stopChans[k] < t.nextChan
  }

  /** The file a recording started at timeStr is written to. */
  function VideoDest(env: Env, timeStr: string): (p: string)
    ensures |p| == |env.videoPath| + 1 + |timeStr| + 5
    ensures p[..|env.videoPath| + 1] == env.videoPath + "/"
    ensures p[|env.videoPath| + 1..|p| - 5] == timeStr
    ensures p[|p| - 5..] == ".webM"
  {
    env.videoPath + "/" + timeStr + ".webM"
  }

  /**
   * start-record: a second start for the same uuid only reports
   * "already-recorded"; otherwise a new stop signal and a timestamped path
   * are stored under from, and the recording is launched.
   */
  function StartStep(t: RecordTable, env: Env, from: string, timeStr: string): (r: (RecordTable, seq<Effect>))
    ensures Consistent(t) ==> Consistent(r.0)
    ensures from in t.stopChans ==> r.0 == t
    ensures from in r.0.stopChans
    ensures from !in t.stopChans ==> from in r.0.paths && r.0.paths[from] == VideoDest(env, timeStr)
    ensures Consistent(t) && from !in t.stopChans ==> r.0.stopChans[from] !in t.stopChans.Values
    ensures forall k :: k != from ==>
              (k in r.0.stopChans <==> k in t.stopChans) && (k in t.stopChans ==> r.0.stopChans[k] == t.stopChans[k])
    ensures forall k :: k != from ==>
              (k in r.0.paths <==> k in t.paths) && (k in t.paths ==> r.0.paths[k] == t.paths[k])
    ensures from in t.stopChans ==> r.1 == [Emit("already-recorded", map["uuid" := from])]
    ensures from !in t.stopChans ==> r.1 == [LaunchRecord(VideoDest(env, timeStr), t.nextChan)]
    ensures from !in t.stopChans ==> r.0.stopChans[from] == t.nextChan && r.0.nextChan == t.nextChan + 1
  {
    if from in t.stopChans then
      (t, [Emit("already-recorded", map["uuid" := from])])
    else
      var stop := t.nextChan;
      var dest := VideoDest(env, timeStr);
      (RecordTable(t.stopChans[from := stop], t.paths[from := dest], t.nextChan + 1), [LaunchRecord(dest, stop)])
  }

  /**
   * The part of stop-record and user-disconnect that ends a recording:
   * close its stop signal, drop the key from both tables, upload the file.
   * A uuid with no recording changes nothing.
   */
  function EndRecording(t: RecordTable, key: string): (r: (RecordTable, seq<Effect>))
    ensures Consistent(t) ==> Consistent(r.0)
    ensures r.0.stopChans == t.stopChans - {key}
    ensures Consistent(t) ==> r.0.paths == t.paths - {key}
    ensures key !in t.stopChans <==> r.1 == []
    ensures Consistent(t) && key in t.stopChans ==> r.1 == [CloseStop(t.stopChans[key]), Upload(t.paths[key])]
    ensures r.0.nextChan == t.nextChan
  {
    if key in t.stopChans then
      var dest := if key in t.paths then t.paths[key] else "";
      (RecordTable(t.stopChans - {key}, t.paths - {key}, t.nextChan), [CloseStop(t.stopChans[key]), Upload(dest)])
    else
      (t, [])
  }

  /** stop-record: ends the recording and then tells the requester it is recorded. */
  function StopStep(t: RecordTable, env: Env, from: string): (r: (RecordTable, seq<Effect>))
    ensures Consistent(t) ==> Consistent(r.0)
    ensures from !in t.stopChans ==> r == (t, [])
    ensures Consistent(t) && from in t.stopChans ==>
              r == (RecordTable(t.stopChans - {from}, t.paths - {from}, t.nextChan),
                    [CloseStop(t.stopChans[from]), Upload(t.paths[from]),
                     Emit("video-recorded", map["to" := from, "from" := env.deviceUuid])])
  {
    var (t', effects) := EndRecording(t, from);
    if from in t.stopChans then
      assert Consistent(t) ==> t' == RecordTable(t.stopChans - {from}, t.paths - {from}, t.nextChan);
      var recorded := Emit("video-recorded", map["to" := from, "from" := env.deviceUuid]);
      assert Consistent(t) ==> effects + [recorded] == [CloseStop(t.stopChans[from]), Upload(t.paths[from]), recorded];
      (t', effects + [recorded])
    else
      (t, [])
  }

  /** A second start without a stop in between leaves the one recording in place and reports it. */
  lemma StartTwice(t: RecordTable, env: Env, from: string, time1: string, time2: string)
    ensures var t1 := StartStep(t, env, from, time1).0;
            StartStep(t1, env, from, time2) == (t1, [Emit("already-recorded", map["uuid" := from])])
  {
  }

  /**
   * Starting and then stopping a recording for a uuid that had none closes
   * exactly the signal the start handed out, uploads the path the start
   * computed, tells the requester, and leaves the tables as they were
   * (apart from the used-up signal number).
   */
  lemma StartThenStop(t: RecordTable, env: Env, from: string, timeStr: string)
    requires Consistent(t)
    requires from !in t.stopChans
    ensures var (t1, _) := StartStep(t, env, from, timeStr);
            var (t2, effects) := StopStep(t1, env, from);
            && t2 == t.(nextChan := t.nextChan + 1)
            && effects == [CloseStop(t.nextChan), Upload(VideoDest(env, timeStr)),
                           Emit("video-recorded", map["to" := from, "from" := env.deviceUuid])]
  {
    var (t1, _) := StartStep(t, env, from, timeStr);
    var (t2, _) := StopStep(t1, env, from);
    assert from !in t.paths;
    assert t2.stopChans == t.stopChans;
    assert t2.paths == t.paths;
  }

  /** After a stop, a new start gets a stop signal no earlier recording used, and the path of its own time. */
  lemma StopThenStartIsFresh(t: RecordTable, env: Env, from: string, timeStr: string)
    requires Consistent(t)
    requires from in t.stopChans
    ensures var t1 := StopStep(t, env, from).0;
            var t2 := StartStep(t1, env, from, timeStr).0;
            && t2.stopChans[from] != t.stopChans[from]
            && t2.paths[from] == VideoDest(env, timeStr)
  {
  }

  /** Stopping twice: the second stop finds nothing and does nothing. */
  lemma StopTwice(t: RecordTable, env: Env, from: string)
    ensures var t1 := StopStep(t, env, from).0;
            StopStep(t1, env, from) == (t1, [])
  {
  }

  /** One operation on the recording tables: a start-record, a stop-record, or a user-disconnect. */
  datatype TableOp = Start(from: string, timeStr: string) | Stop(from: string) | Disconnect(uuid: string)

  function Apply(t: RecordTable, env: Env, op: TableOp): RecordTable
  {
    match op
    case Start(from, timeStr) => StartStep(t, env, from, timeStr).0
    case Stop(from) => StopStep(t, env, from).0
    case Disconnect(uuid) => EndRecording(t, uuid).0
  }

  function ApplyAll(t: RecordTable, env: Env, ops: seq<TableOp>): RecordTable
    decreases |ops|
  {
    if |ops| == 0 then t else ApplyAll(Apply(t, env, ops[0]), env, ops[1..])
  }

  /** Both tables keep the same keys across any run of starts, stops and disconnects. */
  lemma {:induction false} TablesKeepSameKeys(t: RecordTable, env: Env, ops: seq<TableOp>)
    requires Consistent(t)
    ensures Consistent(ApplyAll(t, env, ops))
    ensures ApplyAll(t, env, ops).stopChans.Keys == ApplyAll(t, env, ops).paths.Keys
    decreases |ops|
  {
    if |ops| > 0 {
      TablesKeepSameKeys(Apply(t, env, ops[0]), env, ops[1..]);
    }
  }

  /** The payload of the "answer-sd" message sent back to the viewer that made the offer. */
  function AnswerPayload(env: Env, from: string, answer: PiRtc.SessionDescription): (m: map<string, string>)
    ensures m.Keys == {"uuid", "to", "type", "sdp"}
    ensures m["uuid"] == env.deviceUuid && m["to"] == from
    ensures PiRtc.CreateSessionDescription(m["type"], m["sdp"]) == answer
  {
    PiRtc.SdpTypeNameRoundTrip(answer.typ, answer.sdp);
    map["uuid" := env.deviceUuid, "to" := from, "type" := PiRtc.SdpTypeName(answer.typ), "sdp" := answer.sdp]
  }

  class Callbacks {
    const env: Env
    const prtc: PiRtc.PiRTC
    var stopRecordChans: map<string, nat>
    var videoPathMap: map<string, string>
    var nextChan: nat
    var trace: seq<Effect>

    function Table(): RecordTable
      reads this
    {
      RecordTable(stopRecordChans, videoPathMap, nextChan)
    }

    ghost predicate Valid()
      reads this, prtc
    {
      prtc.Valid() && Consistent(Table())
    }

    /** createCallBacks: both tables start empty. */
    constructor (env: Env, prtc: PiRtc.PiRTC)
      requires prtc.Valid()
      ensures Valid()
      ensures this.env == env && this.prtc == prtc
      ensures Table() == EmptyTable && trace == []
    {
      this.env := env;
      this.prtc := prtc;
      stopRecordChans := map[];
      videoPathMap := map[];
      nextChan := 0;
      trace := [];
    }

    /** user-connect: registers the uuid; a duplicate is only logged. */
    method UserConnect(uuid: string)
      requires Valid()
      modifies prtc`connections
      ensures Valid()
      ensures prtc.connections == if uuid in old(prtc.connections) then old(prtc.connections) else old(prtc.connections)[uuid := None]
    {
      var _ := prtc.NewUser(uuid);
    }

    /**
     * user-disconnect: removes the viewer (an error is only logged), then,
     * whatever UserDisconnect returned, ends any recording of that uuid.
     */
    method UserDisconnect(uuid: string)
      requires Valid()
      modifies this`stopRecordChans, this`videoPathMap, this`trace, prtc`connections
      ensures Valid()
      ensures uuid in old(prtc.connections) && PiRtc.EntryCloses(old(prtc.connections)[uuid]) ==>
                prtc.connections == old(prtc.connections) - {uuid}
      ensures !(uuid in old(prtc.connections) && PiRtc.EntryCloses(old(prtc.connections)[uuid])) ==>
                prtc.connections == old(prtc.connections)
      ensures Table() == EndRecording(old(Table()), uuid).0
      ensures trace == old(trace) + EndRecording(old(Table()), uuid).1
    {
      var _ := prtc.UserDisconnect(uuid);
      if uuid in stopRecordChans {
        var stopChan := stopRecordChans[uuid];
        trace := trace + [CloseStop(stopChan)];
        stopRecordChans := stopRecordChans - {uuid};
        var dest := if uuid in videoPathMap then videoPathMap[uuid] else "";
        trace := trace + [Upload(dest)];
        videoPathMap := videoPathMap - {uuid};
      }
    }

    /**
     * response-list-users: registers every listed uuid, ignoring duplicates;
     * existing entries keep their connection and new ones have none.
     */
    method ResponseListUsers(uuids: seq<string>)
      requires Valid()
      modifies prtc`connections
      ensures Valid()
      ensures prtc.connections.Keys == old(prtc.connections).Keys + set u | u in uuids
      ensures forall k :: k in old(prtc.connections) ==> prtc.connections[k] == old(prtc.connections)[k]
      ensures forall k :: k in prtc.connections && k !in old(prtc.connections) ==> prtc.connections[k] == None
    {
      var i := 0;
      while i < |uuids|
        invariant 0 <= i <= |uuids|
        invariant prtc.Valid()
        invariant prtc.connections.Keys == old(prtc.connections).Keys + set u | u in uuids[..i]
        invariant forall k :: k in old(prtc.connections) ==> prtc.connections[k] == old(prtc.connections)[k]
        invariant forall k :: k in prtc.connections && k !in old(prtc.connections) ==> prtc.connections[k] == None
      {
        var _ := prtc.NewUser(uuids[i]);
        assert uuids[..i + 1] == uuids[..i] + [uuids[i]];
        i := i + 1;
      }
      assert uuids[..|uuids|] == uuids;
    }

    /**
     * offer-sd: builds the offer's description and answers it. Any error of
     * Answer panics (the result is true); otherwise "answer-sd" goes back to
     * the offering viewer with the answer's type and SDP.
     */
    method OfferSd(from: string, typeSd: string, sdp: string, camera: Option<PiRtc.MediaStream>, negotiation: PiRtc.Negotiation)
      returns (panicked: bool)
      requires Valid()
      modifies this`trace, prtc`usageStreamCount, prtc`stream, prtc`connections
      ensures Valid()
      ensures prtc.usageStreamCount == old(prtc.usageStreamCount) + 1
      ensures panicked <==> (prtc.stream.None? || from !in old(prtc.connections) || negotiation.NegotiationFailed?)
      ensures panicked ==> trace == old(trace) && prtc.connections == old(prtc.connections)
      ensures !panicked ==> prtc.connections == old(prtc.connections)[from := Some(negotiation.peer)]
      ensures prtc.stream == if old(prtc.stream).Some? then old(prtc.stream) else camera
      ensures !panicked ==> trace == old(trace) + [Emit("answer-sd", AnswerPayload(env, from, negotiation.local))]
    {
      var offer := PiRtc.CreateSessionDescription(typeSd, sdp);
      var r := prtc.Answer(from, offer, camera, negotiation);
      if r.Failure? {
        return true;
      }
      trace := trace + [Emit("answer-sd", AnswerPayload(env, from, r.value))];
      panicked := false;
    }

    /** ice-candidate: accepted and ignored. */
    method IceCandidate()
      ensures unchanged(this, prtc)
    {
    }

    /** start-record, as StartStep describes. */
    method StartRecord(from: string, timeStr: string)
      requires Valid()
      modifies this`stopRecordChans, this`videoPathMap, this`nextChan, this`trace
      ensures Valid()
      ensures Table() == StartStep(old(Table()), env, from, timeStr).0
      ensures trace == old(trace) + StartStep(old(Table()), env, from, timeStr).1
    {
      if from in stopRecordChans {
        trace := trace + [Emit("already-recorded", map["uuid" := from])];
      } else {
        var stopChan := nextChan;
        nextChan := nextChan + 1;
        stopRecordChans := stopRecordChans[from := stopChan];
        var dest := VideoDest(env, timeStr);
        videoPathMap := videoPathMap[from := dest];
        trace := trace + [LaunchRecord(dest, stopChan)];
      }
    }

    /** stop-record, as StopStep describes. */
    method StopRecord(from: string)
      requires Valid()
      modifies this`stopRecordChans, this`videoPathMap, this`trace
      ensures Valid()
      ensures Table() == StopStep(old(Table()), env, from).0
      ensures trace == old(trace) + StopStep(old(Table()), env, from).1
    {
      if from in stopRecordChans {
        trace := trace + [CloseStop(stopRecordChans[from])];
        stopRecordChans := stopRecordChans - {from};
        var dest := videoPathMap[from];
        trace := trace + [Upload(dest)];
        videoPathMap := videoPathMap - {from};
        trace := trace + [Emit("video-recorded", map["to" := from, "from" := env.deviceUuid])];
      }
    }
  }
}
