# go-pirtc camera node: a Dafny model of its session and resource core

go-pirtc runs on a camera node. Remote viewers watch it over WebRTC, it
records clips on request, and it takes commands from a local sensor
process over a unix socket. This project models the part of the program
that keeps state and coordinates. It proves what each operation does to
that state.

- `pirtc.dfy` (module `PiRtc`, from `internal/pirtc/pirtc.go`) covers the
  `PiRTC` object:
  - the usage counter around the single camera stream and its clamp at 0;
  - opening the stream lazily and closing it track by track;
  - the viewer registry (`NewUser`, `UserDisconnect`);
  - the bookkeeping of `Answer`, and the ICE observer that releases the
    stream when a connection closes;
  - the mapping of SDP type names in `CreateSessionDescription`.
- `webmsaver.dfy` (module `WebmSaver`, from `internal/pirtc/webmsaver.go`)
  covers the recording saver:
  - the VP8 key-frame flag, and the 14-bit width and height it reads from a
    key frame's header (section 9.1 of RFC 6386);
  - opening the WebM writer on the first key frame;
  - the running timestamp that stamps every written block.

  `Push` is a fold over the samples the jitter buffer hands out. The method
  `Saver.PushVP8` is proved equal to it, and lemmas state what the fold does.
- `unixsocket.dfy` (module `UnixSocket`, from
  `internal/unixsocket/unixsocket.go`) covers the local socket client:
  - the handshake reply;
  - splitting a frame into `<category> <action> [param]` and dispatching it
    through the two-level handler table;
  - the read loop and when it ends;
  - `SendMessage`'s `[pid] message` format and its parser partner;
  - `Init`.
- `app.dfy` (module `App`, from `cmd/app/main.go`) covers the handlers that
  `createCallBacks` registers:
  - user-connect, user-disconnect, response-list-users, offer-sd,
    ice-candidate, start-record and stop-record;
  - the two recording tables they keep: the stop signal of each recording
    and the file it writes, both keyed by the requester's uuid.

  What each handler sends or uploads is appended to a trace of effects.
- `gotext.dfy` (module `GoText`) holds the pieces of Go's `fmt` and
  `strings` that this logic relies on:
  - `%d` formatting, with a parser proved to read it back;
  - `strings.SplitN(s, " ", 3)`, with the join that inverts it.
- `wrappers.dfy` holds `Option` and `Result`.

Outside inputs become parameters:
- the camera that `GetUserMedia` returns, or its failure;
- pion's offer/answer negotiation, as its outcome;
- whether a track's or a peer's `Close` fails;
- what the socket read returns each time round the loop, and whether a
  write fails;
- the current time string;
- the process's effective group id.

Behaviour of the code that the model keeps as written:
- `Answer` raises the usage count before anything else and never lowers it
  again. An unknown uuid, a camera that cannot be opened, and a failed
  negotiation all leave the count one higher; the stream opened for an
  unknown viewer stays open.
- A track whose `Close` fails leaves the stream open while the count is 0.
  `DisableStream` and `DecrementStreamUsage` state this.
- Any error of `Answer` inside the offer-sd handler panics, so one failed
  session takes the whole process down. The model makes this visible as
  `OfferSd`'s `panicked` result.
- The unix socket read loop returns on a read error and does not reconnect.
  `ServeStopsAtEnd` states this.

## Model

| member | source | states |
|---|---|---|
| `GoText.Itoa` | internal/unixsocket/unixsocket.go:52 | `%d` text of an int: non-empty, digits only apart from a leading '-', the '-' is there exactly when the value is negative, and there is no leading zero (the text of 0 is "0") |
| `GoText.ItoaRoundTrip` | internal/unixsocket/unixsocket.go:52 | parsing the `%d` text of any int gives that int back |
| `GoText.SplitN3` | internal/unixsocket/unixsocket.go:59 | `SplitN(s, " ", 3)`: one to three parts, joining them with single spaces gives s, no part but the last holds a space, and with fewer than three parts none does |
| `GoText.SplitJoinRoundTrip` | internal/unixsocket/unixsocket.go:59 | splitting the space-join of one to three parts (spaces only in a third part) gives those parts back |
| `PiRtc.FirstFailingTrack` | internal/pirtc/pirtc.go:193-197 | the index of the first track whose Close fails, with every earlier track closing; none exactly when every track closes |
| `PiRtc.CreateSessionDescription` | internal/pirtc/pirtc.go:337-354 | each of "offer", "answer", "rollback", "pranswer" gives its SDP type and only that name does; any other string leaves the type Unknown; the SDP text is carried over |
| `PiRtc.SdpTypeNameRoundTrip` | internal/pirtc/pirtc.go:337-354 | the name of every SDP type, Unknown included, parses back to that type with the SDP unchanged |
| `PiRtc.SdpTypeName` | cmd/app/main.go:191 | `Type.String()`: the name of a type is a string that `CreateSessionDescription` reads as that type |
| `PiRtc.StreamAfterDisable` | internal/pirtc/pirtc.go:190-202 | the stream after a disable: none exactly when every track closes; otherwise the stream is kept as it was |
| `PiRtc.CreateSessionDescriptionNames` | internal/pirtc/pirtc.go:339-350 | a string that parses to a known type is that type's name |
| `PiRtc.PiRTC.Init` | internal/pirtc/pirtc.go:41-56 | fails exactly when the VP8 parameters cannot be built; otherwise a new node with count 0, no stream, no viewers and bit rate 500000 |
| `PiRtc.PiRTC.NewUser` | internal/pirtc/pirtc.go:58-66 | a known uuid gives "USER EXIST" and the registry unchanged; a new one is added with no connection |
| `PiRtc.PiRTC.UserDisconnect` | internal/pirtc/pirtc.go:68-85 | an unknown uuid gives "USER NOT FOUND"; a peer whose Close fails returns that error and keeps the entry; otherwise exactly that entry is removed |
| `PiRtc.PiRTC.EnableStream` | internal/pirtc/pirtc.go:162-188 | an open stream is kept and nothing fails; without one the camera result becomes the stream, with an error exactly when the camera is unavailable |
| `PiRtc.PiRTC.DisableStream` | internal/pirtc/pirtc.go:190-202 | tracks are closed in order up to the first failing one; all closed drops the stream; otherwise the error is returned and the stream is kept |
| `PiRtc.PiRTC.IncrementStreamUsage` | internal/pirtc/pirtc.go:315-320 | one more user of the stream; the count stays non-negative |
| `PiRtc.PiRTC.DecrementStreamUsage` | internal/pirtc/pirtc.go:322-335 | one user fewer, clamped at 0; when the count ends at 0 the stream is disabled, otherwise it is unchanged |
| `PiRtc.PiRTC.Answer` | internal/pirtc/pirtc.go:87-160 | the count always rises by one; each of camera unavailable, unknown uuid and failed negotiation returns its error with the registry unchanged; success maps the uuid to the new peer and returns its local description |
| `PiRtc.PiRTC.OnIceConnectionStateChange` | internal/pirtc/pirtc.go:126-139 | Closed releases one stream user; when the count reaches 0 the stream becomes `StreamAfterDisable` of the old one, and otherwise it is unchanged; every other state leaves count and stream alone |
| `PiRtc.ViewerSession` | internal/pirtc/pirtc.go:87-139 | one viewer on a fresh node with an available camera and a successful negotiation: Answer returns the local description, the stream has one user during the session, and after ICE Closed it has none and the stream is released as `StreamAfterDisable` says |
| `PiRtc.PiRTC.AcquireForCapture` | internal/pirtc/pirtc.go:286-289 | the acquire half of a capture: the stream is opened if there was none, and the count rises by one |
| `WebmSaver.IsKeyFrame` | internal/pirtc/webmsaver.go:44 | a sample is a key frame exactly when its first byte is even |
| `WebmSaver.LittleEndian32` | internal/pirtc/webmsaver.go:47 | the word built from bytes 6..9 holds byte 6 in its low eight bits, then byte 7, byte 8 and byte 9 in the high eight bits |
| `WebmSaver.WidthOfWord` | internal/pirtc/webmsaver.go:47-48 | masking the little-endian word of bytes 6..9 with 0x3FFF gives byte 6 plus 256 times the low six bits of byte 7 |
| `WebmSaver.HeightOfWord` | internal/pirtc/webmsaver.go:47-49 | shifting that word right by 16 and masking gives byte 8 plus 256 times the low six bits of byte 9 |
| `WebmSaver.FrameWidth` | internal/pirtc/webmsaver.go:47-48 | the key frame's width is below 16384 and is read from bytes 6 and 7 only |
| `WebmSaver.FrameHeight` | internal/pirtc/webmsaver.go:47-49 | the key frame's height is below 16384 and is read from bytes 8 and 9 only |
| `WebmSaver.GoDiv` | internal/pirtc/webmsaver.go:58 | Go's division of the timestamp by a millisecond, which truncates toward zero for either sign |
| `WebmSaver.Step` | internal/pirtc/webmsaver.go:44-61 | one popped sample: an open writer is kept; without one, a key frame opens it with that frame's width and height and any other frame changes nothing; with no writer afterwards nothing changes; with one, the timestamp grows by the sample's duration and exactly one block is appended, carrying the key flag, the timestamp in ms and the bytes |
| `WebmSaver.Push` | internal/pirtc/webmsaver.go:38-62 | every popped sample in order: at most one block per sample is appended, and the blocks already written are untouched |
| `WebmSaver.PushKeepsWriter` | internal/pirtc/webmsaver.go:51-54 | once the writer is open no later sample, key frame or not, replaces it |
| `WebmSaver.PushDropsBeforeKeyFrame` | internal/pirtc/webmsaver.go:44-61 | while no key frame has come, samples are dropped: nothing is written and the timestamp stays |
| `WebmSaver.PushOpensOnFirstKeyFrame` | internal/pirtc/webmsaver.go:45-54 | without a writer, the first key frame opens it with that frame's width and height and the path of the call; earlier samples are dropped |
| `WebmSaver.PushWritesEverySample` | internal/pirtc/webmsaver.go:56-61 | with a writer open every sample is written in order: the timestamp grows by the sum of the durations, each block carries the sample's key flag, bytes and running timestamp in ms, and earlier blocks are untouched |
| `WebmSaver.PushTimestampNonDecreasing` | internal/pirtc/webmsaver.go:57 | with non-negative durations the running timestamp never goes backwards |
| `WebmSaver.Saver.NewWebmSaver` | internal/pirtc/webmsaver.go:21-25 | a new saver has no writer, timestamp 0 and nothing written |
| `WebmSaver.Saver.InitWriter` | internal/pirtc/webmsaver.go:65-99 | the writer is opened for the path with the given frame size |
| `WebmSaver.Saver.PushVP8` | internal/pirtc/webmsaver.go:35-63 | handling the popped samples in order leaves the saver in the state the fold `Push` gives, whose properties the lemmas above state |
| `WebmSaver.Saver.Close` | internal/pirtc/webmsaver.go:27-33 | the writer is closed only when one was opened |
| `UnixSocket.HandshakeReply` | internal/unixsocket/unixsocket.go:51-52 | the reply is "HANDSHAKE", a space, and the `%d` text of the pid (`Itoa`, so no leading zero), which parses back to the pid |
| `UnixSocket.ParseCommand` | internal/unixsocket/unixsocket.go:59-66 | a frame has a command exactly when it holds a space; category and action hold no space, and the frame is category, action and param joined by spaces (param "" when there are two parts) |
| `UnixSocket.HandleFrame` | internal/unixsocket/unixsocket.go:51-79 | exactly the handshake frame gets a reply, and it is the pid reply; a handler is called only when it is registered under the frame's category and action |
| `UnixSocket.DispatchThreeParts` | internal/unixsocket/unixsocket.go:59-72 | "category action param" calls the registered handler with everything after the second space, or nothing when none is registered |
| `UnixSocket.DispatchTwoParts` | internal/unixsocket/unixsocket.go:59-72 | "category action" calls the registered handler with an empty param, or nothing |
| `UnixSocket.NoDispatchWithoutSpace` | internal/unixsocket/unixsocket.go:59-79 | a frame without a space that is not the handshake calls nothing |
| `UnixSocket.FormatWithPidRoundTrip` | internal/unixsocket/unixsocket.go:87 | the text SendMessage writes reads back as the sender's pid and the unchanged message |
| `UnixSocket.ServeStopsAtEnd` | internal/unixsocket/unixsocket.go:33-49 | the loop ends at the first disconnect signal or failed read; nothing after it is looked at and nothing reconnects |
| `UnixSocket.ServeConnectedFlag` | internal/unixsocket/unixsocket.go:35-38 | frames never touch the flags; the loop ends with connection and flag cleared exactly when the disconnect signal ended it |
| `UnixSocket.HandshakesCallNothing` | internal/unixsocket/unixsocket.go:51-57 | handshake frames call no handler |
| `UnixSocket.HandshakesReplyWithPid` | internal/unixsocket/unixsocket.go:51-57 | a run of handshake frames sends, after what was sent before, exactly one pid reply per successful write and nothing for a failed one |
| `UnixSocket.Lookup` | internal/unixsocket/unixsocket.go:67-68 | a handler is found exactly when the category is in the table and the action in its inner table, and it is the one registered there |
| `UnixSocket.FormatWithPid` | internal/unixsocket/unixsocket.go:87 | `[pid] message`: '[', the `%d` text of the pid, "] " and the message unchanged at the end |
| `UnixSocket.FrameStep` | internal/unixsocket/unixsocket.go:51-79 | one received frame: the flags stay; a reply is sent exactly for the handshake whose write succeeds; at most one handler call is appended after the earlier ones, and none for the handshake |
| `UnixSocket.FrameStepCallsHandler` | internal/unixsocket/unixsocket.go:59-79 | the call a frame appends is exactly the one HandleFrame picks, the registered handler with the frame's param; every other frame appends none |
| `UnixSocket.Serve` | internal/unixsocket/unixsocket.go:33-83 | the read loop over its events: at most one message sent and one handler called per event, each after what was sent and called before |
| `UnixSocket.UnixSocketClient.Init` | internal/unixsocket/unixsocket.go:21-30 | the pid is recorded; the dial's outcome decides whether there is a connection, whether it is open, and the error; only a successful dial marks the client connected |
| `UnixSocket.UnixSocketClient.ListenAndServe` | internal/unixsocket/unixsocket.go:32-84 | given a connection (possibly closed by an earlier disconnect, when it yields no frame), running the read loop leaves the client in the state `Serve` describes, whose properties the lemmas above state |
| `UnixSocket.UnixSocketClient.HandleReceived` | internal/unixsocket/unixsocket.go:51-79 | one successful read is handled as `HandleFrame` decides: the reply is sent unless its write fails, or the handler call is recorded |
| `UnixSocket.UnixSocketClient.SendMessage` | internal/unixsocket/unixsocket.go:86-93 | given a connection, the error is exactly a failed write or a connection the disconnect has closed, and then nothing is sent; otherwise the pid-prefixed message is sent |
| `App.StartStep` | cmd/app/main.go:220-245 | a running recording only reports "already-recorded" and changes nothing; otherwise `from` gets the next fresh stop signal (no running recording holds it, and the counter moves past it) and the timestamped path, and the one effect is launching the recording into that path with that same signal; no other key's stop signal or path changes, and the tables stay consistent |
| `App.VideoDest` | cmd/app/main.go:231 | the recording path is the video directory, '/', the time string and ".webM", each part found at its place |
| `App.EndRecording` | cmd/app/main.go:152-161 | the key leaves both tables and no other key does; effects happen exactly when a recording existed, and they are closing that recording's stop signal and then uploading its path; the signal counter is unchanged; the tables stay consistent |
| `App.StopStep` | cmd/app/main.go:247-266 | a uuid without a recording changes nothing and sends nothing; otherwise both tables lose exactly that uuid, and the effects are closing its stop signal, uploading its path, and sending "video-recorded" to the requester from the device; the tables stay consistent |
| `App.StartTwice` | cmd/app/main.go:223-228 | a second start without a stop leaves the one recording in place and reports "already-recorded" |
| `App.StartThenStop` | cmd/app/main.go:220-266 | start then stop closes the signal the start handed out, uploads the path it computed, sends "video-recorded", and restores the tables |
| `App.StopThenStartIsFresh` | cmd/app/main.go:229-232 | after a stop, a new start gets a stop signal different from the old one and the path of its own time |
| `App.StopTwice` | cmd/app/main.go:249 | a second stop finds nothing and does nothing |
| `App.TablesKeepSameKeys` | cmd/app/main.go:130-131 | across any run of starts, stops and disconnects, both recording tables keep the same keys |
| `App.Callbacks.constructor` | cmd/app/main.go:128-131 | the handlers start with empty recording tables and an empty trace |
| `App.Callbacks.UserConnect` | cmd/app/main.go:134-143 | the uuid is registered with no connection, or the registry is left as it was if it is known |
| `App.Callbacks.UserDisconnect` | cmd/app/main.go:145-166 | the viewer is removed as `UserDisconnect` decides; whatever that returns, any recording of the uuid is ended without "video-recorded" |
| `App.Callbacks.ResponseListUsers` | cmd/app/main.go:168-176 | the registry's keys become the old ones plus the listed uuids; old entries keep their connection and new ones have none |
| `App.Callbacks.OfferSd` | cmd/app/main.go:178-202 | the handler panics exactly when Answer fails, sending nothing; otherwise "answer-sd" with the device uuid, the requester, the answer's type name and SDP is sent, and the requester maps to the new peer; the node's stream is the one it had, or the camera when it had none |
| `App.AnswerPayload` | cmd/app/main.go:188-193 | the answer-sd payload has exactly the keys uuid, to, type and sdp: the device uuid, the requester, and a type and SDP that read back as the answer |
| `App.Callbacks.IceCandidate` | cmd/app/main.go:204 | the handler changes nothing |
| `App.Callbacks.StartRecord` | cmd/app/main.go:220-245 | the tables and the trace change as `StartStep` describes, and the tables stay consistent |
| `App.Callbacks.StopRecord` | cmd/app/main.go:247-266 | the tables and the trace change as `StopStep` describes, and the tables stay consistent |

## Left out

- TakeShot, Record, RecordWithTimer and the body of record (internal/pirtc/pirtc.go:204-313): frame reading, JPEG encoding, the RTP reader, the goroutine and its timer. Only how they bracket the stream is modelled: `AcquireForCapture` to acquire, `DecrementStreamUsage` to release.
- The take-image handler (cmd/app/main.go:206-218): it is TakeShot plus an image upload.
- PiRtc.PiRTC.Answer: pion's negotiation is one input, success or failure. This leaves out:
  - the panic when the peer connection cannot be created;
  - the transceivers;
  - the per-track OnEnded observer, which releases the stream a second time;
  - waiting for ICE gathering.
- PiRtc.PiRTC.OnIceConnectionStateChange: the peer Close on Disconnected and Failed has no effect on the model's state. Its error is ignored, and the registry entry stays.
- PiRtc.PiRTC.OnIceConnectionStateChange: requires an open stream when Closed brings the count to 0. The source then calls GetTracks on a nil stream (internal/pirtc/pirtc.go:191) and panics; this is reachable when a stream is released twice (the OnEnded observer and then ICE Closed). That panic is not modelled.
- PiRtc.PiRTC.DisableStream: requires an open stream. On a nil stream the source panics at GetTracks (internal/pirtc/pirtc.go:191); that panic is not modelled.
- PiRtc.PiRTC.DecrementStreamUsage: requires an open stream when the count ends at 0, for the same reason: a release after the stream is gone panics in DisableStream (internal/pirtc/pirtc.go:191), and that panic is not modelled.
- PiRtc.PiRTC.UserDisconnect: when Close fails, the source returns with the mutex still held. Mutexes, and the concurrency between handlers, the read loops and the recording goroutines, are not modelled. Every operation runs as one atomic step.
- The jitter buffer (samplebuilder) is foreign. `PushVP8` takes the samples its Pop yields.
- WebmSaver.Saver.PushVP8: requires every popped sample to be readable. The source panics on an empty sample (internal/pirtc/webmsaver.go:44) and on a key frame shorter than 10 bytes (:47); it also panics when the writer's Write fails (:58-60). None of these panics is modelled, and a Write never fails in the model.
- WebmSaver.Saver.InitWriter: the directory and file creation, the WebM track header, and the panics on I/O failure are not modelled. The writer is a record of its path and frame size.
- WebmSaver.Saver.Close: the panic when the writer's Close fails is not modelled.
- WebmSaver.GoDiv: the int64 conversion of the timestamp is not bounded. The integers are unbounded, so a time.Duration overflow is out of the model.
- Recording uploads: the upload is an `Upload` effect. The panic on an upload error is not modelled.
- App.Callbacks.OfferSd: the panic is a result flag. The model does not follow it by ending the process.
- Type assertions on the handlers' payloads (which panic on a malformed message) are not modelled. Each handler takes the fields it reads.
- UnixSocket.UnixSocketClient.ListenAndServe: requires a dialed connection. After a failed Init the connection is nil, and the source's Read on it panics (internal/unixsocket/unixsocket.go:41); that panic is not modelled. A connection closed by the disconnect signal is allowed, and then the method requires that the loop observe no frame first (the disconnect signal again, or the failed Read on the closed connection); the Go runtime's behaviour on a closed connection is an assumption of the model there, not something it derives.
- UnixSocket.UnixSocketClient.SendMessage: requires a dialed connection. Its Write on the nil connection after a failed Init panics (internal/unixsocket/unixsocket.go:88); that panic is not modelled. On a connection the disconnect has closed, the Write error is returned.
- The unix socket read buffer is 1024 bytes. Each successful read is taken to be exactly one frame.
- The check `prtc != nil && wsClient != nil` in start-record, and the nil checks in offer-sd, are always true after `main` and are not modelled.
- The current time string (utils.GetCurrentTimeStr) and the process's effective group id are inputs.
- internal/ws/ws.go, internal/read_env, internal/utils and the plumbing of `main` are not part of this model. This includes the initial "request-list-users" message and the shutdown loop.
