/**
 * The local sensor channel (internal/unixsocket/unixsocket.go): a client of
 * a unix socket that answers the handshake token with its id, splits every
 * other frame into `<category> <action> [param]`, and dispatches it through
 * a two-level handler table.
 *
 * The socket is given as the sequence of things the read loop observes, one
 * per iteration: the disconnect signal, a failed read, or the bytes of one
 * successful read. Handlers are opaque; calling one is recorded as a Call.
 */
module UnixSocket {
  import opened Wrappers
  import opened GoText

  /** The token the sensor process sends to open the conversation. */
  const Handshake := "HANDSHAKE"

  /** An opaque handler function of the table. */
  type HandlerId = nat

  /** handleMessageMap: category, then action, to handler. */
  type HandlerMap = map<string, map<string, HandlerId>>

  datatype Command = Command(category: string, action: string, param: string)

  /** What one frame makes the loop do. */
  datatype FrameEffect = Reply(message: string) | Invoke(handler: HandlerId, param: string) | Ignore

  datatype LoopEvent =
    | DisconnectSignalled         // the disconnect channel is closed
    | ReadFailed(eof: bool)       // Read returned an error, io.EOF or another
    | Received(data: string, writeFails: bool)  // one Read's bytes; writeFails: whether a reply Write would fail

  datatype Call = Call(handler: HandlerId, param: string)

  /** What the loop leaves behind: the flags, the messages written to the socket, the handlers called. */
  datatype ClientState = ClientState(connected: bool, socketOpen: bool, sent: seq<string>, calls: seq<Call>)

  /** The reply to the handshake: `fmt.Sprintf("HANDSHAKE %d", pid)`. */
  function HandshakeReply(pid: int): (m: string)
    ensures |m| > |Handshake| + 1 && m[..|Handshake|] == Handshake && m[|Handshake|] == ' '
    ensures m[|Handshake| + 1..] == Itoa(pid)
    ensures ParseInt(m[|Handshake| + 1..]) == Some(pid)
  {
    var m := Handshake + " " + Itoa(pid);
    ItoaRoundTrip(pid);
    assert m[|Handshake| + 1..] == Itoa(pid);
    m
  }

  /**
   * A non-handshake frame: `strings.SplitN(data, " ", 3)`; with at least two
   * parts, category and action are the first two and param is the third or
   * "". A frame without a space yields nothing.
   */
  function ParseCommand(data: string): (r: Option<Command>)
    ensures r.None? <==> ' ' !in data
    ensures r.Some? ==> ' ' !in r.value.category && ' ' !in r.value.action
    ensures r.Some? ==>
              || data == r.value.category + " " + r.value.action + " " + r.value.param
              || (data == r.value.category + " " + r.value.action && r.value.param == "")
  {
    var parts := SplitN3(data);
    if |parts| >= 2 then
      if |parts| == 3 then
        JoinSpace3(parts[0], parts[1], parts[2]);
        assert parts == [parts[0], parts[1], parts[2]];
        Some(Command(parts[0], parts[1], parts[2]))
      else
        JoinSpace2(parts[0], parts[1]);
        assert parts == [parts[0], parts[1]];
        Some(Command(parts[0], parts[1], ""))
    else
      assert parts == [data];
      None
  }

  /** The handler registered for category and action, if both are known. */
  function Lookup(handlers: HandlerMap, category: string, action: string): (r: Option<HandlerId>)
    ensures r.Some? <==> category in handlers && action in handlers[category]
    ensures r.Some? ==> r.value == handlers[category][action]
  {
    if category in handlers && action in handlers[category] then Some(handlers[category][action]) else None
  }

  /**
   * One frame: the handshake gets its reply and calls nothing; any other
   * frame calls at most one handler, and only one registered under both its
   * category and its action.
   */
  function HandleFrame(data: string, pid: int, handlers: HandlerMap): (e: FrameEffect)
    ensures e.Reply? <==> data == Handshake
    ensures e.Reply? ==> e.message == HandshakeReply(pid)
    ensures e.Invoke? ==>
              && ParseCommand(data).Some?
              && Lookup(handlers, ParseCommand(data).value.category, ParseCommand(data).value.action) == Some(e.handler)
  {
    if data == Handshake then Reply(HandshakeReply(pid))
    else match ParseCommand(data)
      case None => Ignore
      case Some(cmd) =>
        match Lookup(handlers, cmd.category, cmd.action)
        case None => Ignore
        case Some(h) => Invoke(h, cmd.param)
  }

  lemma HandshakeHasNoSpace()
    ensures ' ' !in Handshake
  {
  }

  lemma ParseThreeParts(category: string, action: string, param: string)
    requires ' ' !in category && ' ' !in action
    ensures ParseCommand(category + " " + action + " " + param) == Some(Command(category, action, param))
  {
    SplitThree(category, action, param);
  }

  lemma ParseTwoParts(category: string, action: string)
    requires ' ' !in category && ' ' !in action
    ensures ParseCommand(category + " " + action) == Some(Command(category, action, ""))
  {
    SplitTwo(category, action);
  }

  /** A three-part frame calls the registered handler with everything after the second space. */
  lemma DispatchThreeParts(category: string, action: string, param: string, pid: int, handlers: HandlerMap)
    requires ' ' !in category && ' ' !in action
    ensures HandleFrame(category + " " + action + " " + param, pid, handlers) ==
              match Lookup(handlers, category, action)
              case Some(h) => Invoke(h, param)
              case None => Ignore
  {
    var data := category + " " + action + " " + param;
    assert data[|category|] == ' ';
    HandshakeHasNoSpace();
    ParseThreeParts(category, action, param);
  }

  /** A two-part frame calls the registered handler with an empty param. */
  lemma DispatchTwoParts(category: string, action: string, pid: int, handlers: HandlerMap)
    requires ' ' !in category && ' ' !in action
    ensures HandleFrame(category + " " + action, pid, handlers) ==
              match Lookup(handlers, category, action)
              case Some(h) => Invoke(h, "")
              case None => Ignore
  {
    var data := category + " " + action;
    assert data[|category|] == ' ';
    HandshakeHasNoSpace();
    ParseTwoParts(category, action);
  }

  /** A frame with no space that is not the handshake calls nothing. */
  lemma NoDispatchWithoutSpace(data: string, pid: int, handlers: HandlerMap)
    requires ' ' !in data && data != Handshake
    ensures HandleFrame(data, pid, handlers) == Ignore
  {
  }

  /** SendMessage's text: `fmt.Sprintf("[%d] %s", pid, message)`. */
  function FormatWithPid(pid: int, message: string): (m: string)
    ensures |m| == 1 + |Itoa(pid)| + 2 + |message| && m[0] == '['
    ensures m[1..1 + |Itoa(pid)|] == Itoa(pid)
    ensures m[1 + |Itoa(pid)|..] == "] " + message
  {
    var digits := Itoa(pid);
    var m := "[" + digits + "] " + message;
    assert m[1..1 + |digits|] == digits;
    assert m[1 + |digits|..] == "] " + message;
    m
  }

  /** Reads back a message written by FormatWithPid: the pid and the message. */
  function ParsePidMessage(s: string): Option<(int, string)>
  {
    if |s| == 0 || s[0] != '[' then None
    else match IndexOf(s, ']')
      case None => None
      case Some(j) =>
        if j + 1 < |s| && s[j + 1] == ' ' then
          match ParseInt(s[1..j])
          case None => None
          case Some(pid) => Some((pid, s[j + 2..]))
        else None
  }

  /** Every SendMessage text names the sender's pid and carries the message unchanged. */
  lemma FormatWithPidRoundTrip(pid: int, message: string)
    ensures ParsePidMessage(FormatWithPid(pid, message)) == Some((pid, message))
  {
    var digits := Itoa(pid);
    var s := FormatWithPid(pid, message);
    var head := "[" + digits;
    assert ']' !in head;
    assert s == head + ("] " + message);
    IndexOfPrefix(head, "] " + message, ']');
    assert s[1..|head|] == digits;
    assert s[|head| + 2..] == message;
    ItoaRoundTrip(pid);
  }

  /** One received frame. A reply whose Write fails is not sent; the loop goes on either way. */
  function FrameStep(st: ClientState, pid: int, handlers: HandlerMap, data: string, writeFails: bool): (r: ClientState)
    ensures r.connected == st.connected && r.socketOpen == st.socketOpen
    ensures r.sent == if data == Handshake && !writeFails then st.sent + [HandshakeReply(pid)] else st.sent
    ensures |st.calls| <= |r.calls| <= |st.calls| + 1 && r.calls[..|st.calls|] == st.calls
    ensures data == Handshake ==> r.calls == st.calls
  {
    match HandleFrame(data, pid, handlers)
    case Reply(m) => if writeFails then st else st.(sent := st.sent + [m])
    case Invoke(h, p) => st.(calls := st.calls + [Call(h, p)])
    case Ignore => st
  }

  /**
   * The handler a frame calls is the one HandleFrame picks, with its param:
   * a registered `<category> <action> [param]` frame appends exactly that
   * call, and every other frame appends none.
   */
  lemma FrameStepCallsHandler(st: ClientState, pid: int, handlers: HandlerMap, data: string, writeFails: bool)
    ensures FrameStep(st, pid, handlers, data, writeFails).calls ==
            st.calls + match HandleFrame(data, pid, handlers)
                       case Invoke(h, p) => [Call(h, p)]
                       case _ => []
  {
  }

  predicate Ends(e: LoopEvent)
  {
    e.DisconnectSignalled? || e.ReadFailed?
  }

  /**
   * The read loop over the events it observes. The disconnect signal closes
   * the socket, clears the connected flag and ends the loop; a failed read
   * ends it with the flags as they are, and nothing reconnects.
   */
  function Serve(st: ClientState, pid: int, handlers: HandlerMap, events: seq<LoopEvent>): (r: ClientState)
    ensures |st.sent| <= |r.sent| <= |st.sent| + |events| && r.sent[..|st.sent|] == st.sent
    ensures |st.calls| <= |r.calls| <= |st.calls| + |events| && r.calls[..|st.calls|] == st.calls
    decreases |events|
  {
    if |events| == 0 then st
    else match events[0]
      case DisconnectSignalled => st.(connected := false, socketOpen := false)
      case ReadFailed(_) => st
      case Received(data, writeFails) =>
        var next := FrameStep(st, pid, handlers, data, writeFails);
        var r := Serve(next, pid, handlers, events[1..]);
        assert r.sent[..|st.sent|] == r.sent[..|next.sent|][..|st.sent|];
        assert r.calls[..|st.calls|] == r.calls[..|next.calls|][..|st.calls|];
        r
  }

  /** Event i, the first one the loop has not yet observed, decides what Serve does next. */
  lemma ServeAt(st: ClientState, pid: int, handlers: HandlerMap, events: seq<LoopEvent>, i: nat)
    requires i < |events|
    ensures events[i].DisconnectSignalled? ==> Serve(st, pid, handlers, events[i..]) == st.(connected := false, socketOpen := false)
    ensures events[i].ReadFailed? ==> Serve(st, pid, handlers, events[i..]) == st
    ensures events[i].Received? ==>
              Serve(st, pid, handlers, events[i..]) ==
              Serve(FrameStep(st, pid, handlers, events[i].data, events[i].writeFails), pid, handlers, events[i + 1..])
  {
    assert events[i..][0] == events[i];
    assert events[i..][1..] == events[i + 1..];
  }

  /** Nothing after the event that ends the loop is ever looked at: there is no reconnect. */
  lemma {:induction false} ServeStopsAtEnd(st: ClientState, pid: int, handlers: HandlerMap, events: seq<LoopEvent>, k: nat)
    requires k < |events| && Ends(events[k])
    requires forall i :: 0 <= i < k ==> events[i].Received?
    ensures Serve(st, pid, handlers, events) == Serve(st, pid, handlers, events[..k + 1])
    decreases k
  {
    if k > 0 {
      var e := events[0];
      assert events[..k + 1][0] == e;
      assert events[..k + 1][1..] == events[1..][..k];
      ServeStopsAtEnd(FrameStep(st, pid, handlers, e.data, e.writeFails), pid, handlers, events[1..], k - 1);
    }
  }

  /**
   * Frames never touch the connected flag: the loop leaves it false when it
   * was ended by the disconnect signal, and as it was otherwise.
   */
  lemma {:induction false} ServeConnectedFlag(st: ClientState, pid: int, handlers: HandlerMap, events: seq<LoopEvent>, k: nat)
    requires k < |events| && Ends(events[k])
    requires forall i :: 0 <= i < k ==> events[i].Received?
    ensures Serve(st, pid, handlers, events).connected == (st.connected && !events[k].DisconnectSignalled?)
    ensures Serve(st, pid, handlers, events).socketOpen == (st.socketOpen && !events[k].DisconnectSignalled?)
    decreases k
  {
    if k > 0 {
      var e := events[0];
      var next := FrameStep(st, pid, handlers, e.data, e.writeFails);
      assert next.connected == st.connected && next.socketOpen == st.socketOpen;
      ServeConnectedFlag(next, pid, handlers, events[1..], k - 1);
    }
  }

  predicate AllHandshakes(events: seq<LoopEvent>)
  {
    forall i :: 0 <= i < |events| ==> events[i].Received? && events[i].data == Handshake
  }

  function SuccessfulWrites(events: seq<LoopEvent>): nat
    requires AllHandshakes(events)
  {
    if |events| == 0 then 0 else (if events[0].writeFails then 0 else 1) + SuccessfulWrites(events[1..])
  }

  /** Handshake frames call no handler. */
  lemma {:induction false} HandshakesCallNothing(st: ClientState, pid: int, handlers: HandlerMap, events: seq<LoopEvent>)
    requires AllHandshakes(events)
    ensures Serve(st, pid, handlers, events).calls == st.calls
    decreases |events|
  {
    if |events| > 0 {
      var next := st.(sent := if events[0].writeFails then st.sent else st.sent + [HandshakeReply(pid)]);
      ServeHandshake(st, pid, handlers, events);
      HandshakesCallNothing(next, pid, handlers, events[1..]);
    }
  }

  /**
   * Handshake frames send exactly one pid reply per successful Write, after
   * what was sent before; a failed Write sends nothing.
   */
  lemma {:induction false} HandshakesReplyWithPid(st: ClientState, pid: int, handlers: HandlerMap, events: seq<LoopEvent>)
    requires AllHandshakes(events)
    ensures Serve(st, pid, handlers, events).sent == st.sent + Replies(SuccessfulWrites(events), pid)
    decreases |events|
  {
    if |events| > 0 {
      var next := st.(sent := if events[0].writeFails then st.sent else st.sent + [HandshakeReply(pid)]);
      ServeHandshake(st, pid, handlers, events);
      HandshakesReplyWithPid(next, pid, handlers, events[1..]);
      var k := SuccessfulWrites(events[1..]);
      assert SuccessfulWrites(events) == if events[0].writeFails then k else k + 1;
      RepliesAfter(st.sent, events[0].writeFails, k, pid);
    }
  }

  /** Appending the first handshake's reply (if its Write succeeded) and then k more is one run of replies. */
  lemma RepliesAfter(sent: seq<string>, writeFails: bool, k: nat, pid: int)
    ensures (if writeFails then sent else sent + [HandshakeReply(pid)]) + Replies(k, pid) ==
            sent + Replies(if writeFails then k else k + 1, pid)
  {
    if !writeFails {
      assert Replies(k + 1, pid) == [HandshakeReply(pid)] + Replies(k, pid);
      assert sent + [HandshakeReply(pid)] + Replies(k, pid) == sent + ([HandshakeReply(pid)] + Replies(k, pid));
    }
  }

  /** A handshake frame at the head of the loop only adds the reply (when its Write succeeds). */
  lemma ServeHandshake(st: ClientState, pid: int, handlers: HandlerMap, events: seq<LoopEvent>)
    requires |events| > 0 && events[0].Received? && events[0].data == Handshake
    ensures Serve(st, pid, handlers, events) ==
            Serve(st.(sent := if events[0].writeFails then st.sent else st.sent + [HandshakeReply(pid)]), pid, handlers, events[1..])
  {
    var next := FrameStep(st, pid, handlers, Handshake, events[0].writeFails);
    assert next == st.(sent := next.sent);
  }

  /** n handshake replies carrying pid. */
  function Replies(n: nat, pid: int): seq<string>
  {
    if n == 0 then [] else [HandshakeReply(pid)] + Replies(n - 1, pid)
  }

  class UnixSocketClient {
    var pid: int
    var isConnected: bool
    /** Whether socketClient holds a connection at all; a failed dial leaves it nil. */
    var socketDialed: bool
    /** Whether that connection is still open; the disconnect signal closes it. */
    var socketOpen: bool
    var sent: seq<string>
    var calls: seq<Call>

    function State(): ClientState
      reads this
    {
      ClientState(isConnected, socketOpen, sent, calls)
    }

    /** The zero value of the client struct. */
    constructor ()
      ensures pid == 0 && !socketDialed && State() == ClientState(false, false, [], [])
    {
      pid := 0;
      socketDialed := false;
      isConnected := false;
      socketOpen := false;
      sent := [];
      calls := [];
    }

    /**
     * Init: records the id (the effective group id of the process) and dials
     * the socket. The dial's result replaces the connection, so a failed dial
     * leaves none; only a successful one marks the client connected.
     */
    method Init(egid: int, dialOk: bool) returns (err: bool)
      modifies this`pid, this`isConnected, this`socketDialed, this`socketOpen
      ensures pid == egid
      ensures err == !dialOk
      ensures socketDialed == dialOk && socketOpen == dialOk
      ensures dialOk ==> isConnected
      ensures !dialOk ==> isConnected == old(isConnected)
    {
      pid := egid;
      socketDialed := dialOk;
      socketOpen := dialOk;
      if !dialOk {
        return true;
      }
      isConnected := true;
      err := false;
    }

    /**
     * ListenAndServe: runs the read loop over what it observes, as Serve
     * describes. The connection must exist: Read on the nil connection a
     * failed Init leaves behind panics. A connection closed by an earlier
     * disconnect is allowed; its Read fails, so what the loop observes there
     * starts with ReadFailed (or the disconnect signal again): a closed
     * connection yields no frame.
     */
    method ListenAndServe(handlers: HandlerMap, events: seq<LoopEvent>)
      requires socketDialed
      requires !socketOpen ==> |events| == 0 || Ends(events[0])
      modifies this`isConnected, this`socketOpen, this`sent, this`calls
      ensures State() == Serve(old(State()), pid, handlers, events)
    {
      var i := 0;
      while i < |events|
        invariant 0 <= i <= |events|
        invariant Serve(State(), pid, handlers, events[i..]) == Serve(old(State()), pid, handlers, events)
      {
        ServeAt(State(), pid, handlers, events, i);
        match events[i]
        case DisconnectSignalled =>
          socketOpen := false;
          isConnected := false;
          return;
        case ReadFailed(_) =>
          return;
        case Received(data, writeFails) =>
          HandleReceived(handlers, data, writeFails);
          i := i + 1;
      }
    }

    /** The body of the loop for one successful read. */
    method HandleReceived(handlers: HandlerMap, data: string, writeFails: bool)
      modifies this`sent, this`calls
      ensures State() == FrameStep(old(State()), pid, handlers, data, writeFails)
    {
      if data == Handshake {
        if !writeFails {
          sent := sent + [HandshakeReply(pid)];
        }
        return;
      }
      var parts := SplitN3(data);
      if |parts| >= 2 {
        var typeAction := parts[0];
        var action := parts[1];
        var param := "";
        if |parts| == 3 {
          param := parts[2];
        }
        assert ParseCommand(data) == Some(Command(typeAction, action, param));
        if typeAction in handlers {
          var actionFuncs := handlers[typeAction];
          if action in actionFuncs {
            calls := calls + [Call(actionFuncs[action], param)];
          }
        }
      }
    }

    /**
     * SendMessage: writes the message prefixed with the pid, or reports the
     * failed Write. Like Read, Write needs the connection; on one the
     * disconnect has closed it fails, and the error is returned.
     */
    method SendMessage(message: string, writeFails: bool) returns (err: bool)
      requires socketDialed
      modifies this`sent
      ensures err == (!socketOpen || writeFails)
      ensures !socketOpen ==> err && sent == old(sent)
      ensures sent == if err then old(sent) else old(sent) + [FormatWithPid(pid, message)]
    {
      if !socketOpen || writeFails {
        return true;
      }
      sent := sent + [FormatWithPid(pid, message)];
      err := false;
    }
  }
}
