/**
  The streaming hook of the front end (frontend/src/hooks/use-chat-stream.ts).

  The hook keeps one socket reference (`wsRef`) and an "is open" flag
  (`isOpenRef`). `connect` replaces the socket, the socket's handlers forward
  decoded frames to the caller's `onToken`, `onEnd` and `onError`, and
  `startStream` sends the user's message once the socket is open.

  The browser's sockets are the records in `sockets`, addressed by creation
  index; the browser's events (open, message, error, close) are the methods
  `OnOpen`, `OnMessage`, `OnError` and `OnClose`, named after the handlers they
  run. The event loop is single-threaded, so each event runs to completion.
  Callbacks are not run here: `calls` records each one the hook makes, in order.
 */
module ChatStream {
  import opened Wrappers

  /** A value as `JSON.parse` returns it. */
  datatype Json = JNull | JBool(b: bool) | JNum(n: real) | JStr(s: string) | JArr(items: seq<Json>) | JObj(fields: map<string, Json>)

  /** JavaScript truthiness of a parsed value. */
  predicate Truthy(v: Json) {
    match v
    case JNull => false
    case JBool(b) => b
    case JNum(n) => n != 0.0
    case JStr(s) => s != []
    case JArr(_) => true
    case JObj(_) => true
  }

  /** `data[name]` on a parsed frame; `None` is `undefined`. Only objects carry the three names. */
  function Field(v: Json, name: string): Option<Json> {
    if v.JObj? && name in v.fields then Some(v.fields[name]) else None
  }

  /** An incoming frame after `JSON.parse`: the text did not parse, or it parsed to a value. */
  datatype Frame = Unparsable | Parsed(value: Json)

  /** What `onError` receives: the parse exception, the exception of reading `.token` of `null`, a frame's `error` value, or the socket's error event. */
  datatype Cause = ParseFailure | NullFrame | Payload(value: Json) | TransportFailure

  /** One invocation of a caller callback. */
  datatype Call = Token(token: Json) | End | Error(cause: Cause)

  /** The fixed order in which one frame's callbacks fire. */
  function Rank(c: Call): nat {
    match c
    case Token(_) => 0
    case End => 1
    case Error(_) => 2
  }

  /** `onError?.(cause)`: nothing when the caller gave no `onError`. */
  function Report(cause: Cause, hasOnError: bool): seq<Call> {
    if hasOnError then [Error(cause)] else []
  }

  /**
    The `onmessage` handler. A frame that does not parse, or parses to `null`
    (whose `.token` throws), reports one error. Otherwise a defined `token`, a
    truthy `end` and a truthy `error` each fire their callback, in that order.
   */
  function Dispatch(frame: Frame, hasOnError: bool): (calls: seq<Call>)
    ensures forall i, j :: 0 <= i < j < |calls| ==> Rank(calls[i]) < Rank(calls[j])
    ensures |calls| <= 3
    ensures frame.Unparsable? ==> calls == Report(ParseFailure, hasOnError)
    ensures frame == Parsed(JNull) ==> calls == Report(NullFrame, hasOnError)
    ensures frame.Parsed? && frame.value != JNull ==>
              (Field(frame.value, "token").Some? <==> |calls| > 0 && calls[0].Token?)
              && (Field(frame.value, "token").Some? ==> calls[0] == Token(Field(frame.value, "token").value))
              && (End in calls <==> Field(frame.value, "end").Some? && Truthy(Field(frame.value, "end").value))
              && (hasOnError && Field(frame.value, "error").Some? && Truthy(Field(frame.value, "error").value)
                  <==> |calls| > 0 && calls[|calls| - 1].Error?)
              && (|calls| > 0 && calls[|calls| - 1].Error? ==>
                    calls[|calls| - 1] == Error(Payload(Field(frame.value, "error").value)))
  {
    match frame
    case Unparsable => Report(ParseFailure, hasOnError)
    case Parsed(v) =>
      if v == JNull then Report(NullFrame, hasOnError)
      else
        var token := Field(v, "token");
        var end := Field(v, "end");
        var error := Field(v, "error");
        (if token.Some? then [Token(token.value)] else [])
        + (if end.Some? && Truthy(end.value) then [End] else [])
        + (if hasOnError && error.Some? && Truthy(error.value) then [Error(Payload(error.value))] else [])
  }

  datatype ReadyState = Connecting | Open | Closing | Closed

  /**
    One browser socket: the session it was opened for, its ready state, the
    `message` of every `{message}` frame sent through it, and the message
    content waiting in its once-only "open" listener, if any. Only
    `startStream` adds such a listener, and always to a fresh socket, so a
    socket holds at most one.
   */
  datatype Socket = Socket(session: string, ready: ReadyState, sent: seq<string>, waiting: Option<string>)

  /** CONNECTING or OPEN: the states in which `connect` closes a socket. */
  predicate Live(s: Socket) {
    s.ready == Connecting || s.ready == Open
  }

  /** `WebSocket.close()`: a connecting or open socket starts closing; any other is left as it is. */
  function RequestClose(s: Socket): (r: Socket)
    ensures !Live(r) && r.sent == s.sent && r.waiting == s.waiting
    ensures Live(s) ==> r.ready == Closing
    ensures !Live(s) ==> r == s
  {
    if Live(s) then s.(ready := Closing) else s
  }

  /** `target` names a socket in `sockets` that is OPEN. */
  predicate OpenAt(sockets: seq<Socket>, target: Option<nat>) {
    target.Some? && target.value < |sockets| && sockets[target.value].ready == Open
  }

  /**
    What `wsRef.current?.send(...)` does with one payload: it reaches the
    socket in the slot only when that socket is OPEN (a CONNECTING socket
    throws, a closing or closed one drops the data); no other socket changes.
   */
  function Deliver(sockets: seq<Socket>, target: Option<nat>, payload: string): (r: seq<Socket>)
    ensures |r| == |sockets|
    ensures forall i :: 0 <= i < |sockets| && target != Some(i) ==> r[i] == sockets[i]
    ensures OpenAt(sockets, target) ==>
              r[target.value].sent == sockets[target.value].sent + [payload]
              && r[target.value].(sent := sockets[target.value].sent) == sockets[target.value]
    ensures !OpenAt(sockets, target) ==> r == sockets
  {
    if OpenAt(sockets, target) then
      sockets[target.value := sockets[target.value].(sent := sockets[target.value].sent + [payload])]
    else
      sockets
  }

  /** The messages a waiting listener holds, as a list. */
  function Waiting(w: Option<string>): seq<string> {
    match w
    case None => []
    case Some(m) => [m]
  }

  /** The number of sockets in `sockets` that are CONNECTING or OPEN. */
  function LiveCount(sockets: seq<Socket>): nat {
    if sockets == [] then 0 else (if Live(sockets[0]) then 1 else 0) + LiveCount(sockets[1..])
  }

  /** When no socket but the one at index `k` is CONNECTING or OPEN, at most one socket is live. */
  lemma {:induction false} LiveOnlyAt(sockets: seq<Socket>, k: int)
    requires forall i :: 0 <= i < |sockets| && Live(sockets[i]) ==> i == k
    ensures LiveCount(sockets) <= 1
    ensures k < 0 || k >= |sockets| ==> LiveCount(sockets) == 0
  {
    if sockets != [] {
      forall i | 0 <= i < |sockets[1..]| && Live(sockets[1..][i]) ensures i == k - 1 {
        assert sockets[1..][i] == sockets[i + 1];
      }
      LiveOnlyAt(sockets[1..], k - 1);
    }
  }

  class StreamHook {
    /** Whether the caller supplied `onError` (it is optional). */
    const hasOnError: bool
    /**
      false: the close and error handlers as written, which act whichever
      socket the event belongs to; true: the corrected handlers, which clear
      the slot only when the closing socket is the one in it, and report an
      error only for the socket in the slot.
     */
    const guardReplaced: bool
    /** `wsRef.current`, as an index into `sockets`. */
    var slot: Option<nat>
    /** `isOpenRef.current`. */
    var isOpen: bool
    /** Every socket the hook has created, in creation order. */
    var sockets: seq<Socket>
    /** Every callback invocation so far, in order. */
    var calls: seq<Call>

    /**
      The slot names a created socket. With the corrected close handler, the
      socket in the slot is the only one that can be CONNECTING or OPEN.
     */
    ghost predicate Valid()
      reads this
    {
      (slot.Some? ==> slot.value < |sockets|)
      && (guardReplaced ==> forall i :: 0 <= i < |sockets| && Live(sockets[i]) ==> slot == Some(i))
    }

    constructor (hasOnError: bool, guardReplaced: bool)
      ensures Valid()
      ensures this.hasOnError == hasOnError && this.guardReplaced == guardReplaced
      ensures slot == None && !isOpen && sockets == [] && calls == []
    {
      this.hasOnError := hasOnError;
      this.guardReplaced := guardReplaced;
      slot := None;
      isOpen := false;
      sockets := [];
      calls := [];
    }

    /**
      `connect`: close the socket in the slot if it is CONNECTING or OPEN, then
      put a new CONNECTING socket for `session` in the slot. The open flag is
      left as it was.
     */
    method Connect(session: string)
      requires Valid()
      modifies this`slot, this`sockets
      ensures Valid()
      ensures |sockets| == |old(sockets)| + 1 && slot == Some(|old(sockets)|)
      ensures sockets[|old(sockets)|] == Socket(session, Connecting, [], None)
      ensures forall i :: 0 <= i < |old(sockets)| ==>
                sockets[i] == if old(slot) == Some(i) then RequestClose(old(sockets[i])) else old(sockets[i])
    {
      if slot.Some? && Live(sockets[slot.value]) {
        sockets := sockets[slot.value := RequestClose(sockets[slot.value])];
      }
      sockets := sockets + [Socket(session, Connecting, [], None)];
      slot := Some(|sockets| - 1);
    }

    /**
      `startStream`: connect, then send `{message: content}` at once if the new
      socket is OPEN, or else leave it to a once-only "open" listener. A fresh
      socket is always CONNECTING, so the message always waits for the open event.
     */
    method StartStream(session: string, content: string)
      requires Valid()
      modifies this`slot, this`sockets
      ensures Valid()
      ensures |sockets| == |old(sockets)| + 1 && slot == Some(|old(sockets)|)
      ensures sockets[|old(sockets)|] == Socket(session, Connecting, [], Some(content))
      ensures forall i :: 0 <= i < |old(sockets)| ==>
                sockets[i] == if old(slot) == Some(i) then RequestClose(old(sockets[i])) else old(sockets[i])
    {
      Connect(session);
      var next := sockets;
      if OpenAt(sockets, slot) {
        next := Deliver(sockets, slot, content);
      } else if slot.Some? {
        var t := slot.value;
        next := sockets[t := sockets[t].(waiting := Some(content))];
      }
      sockets := next;
    }

    /**
      The open event of socket `id`, which the browser fires only for a
      CONNECTING socket: `onopen` sets the flag, then the once-only listener,
      if any, sends its message through whatever socket is in the slot at that
      moment.
     */
    method OnOpen(id: nat)
      requires Valid() && id < |sockets|
      modifies this`isOpen, this`sockets
      ensures Valid()
      ensures old(sockets[id].ready) != Connecting ==> sockets == old(sockets) && isOpen == old(isOpen)
      ensures old(sockets[id].ready) == Connecting ==>
                isOpen
                && (var nowOpen := old(sockets)[id := old(sockets[id]).(ready := Open, waiting := None)];
                    sockets == (match old(sockets[id].waiting)
                                case None => nowOpen
                                case Some(m) => Deliver(nowOpen, slot, m)))
      ensures guardReplaced && old(sockets[id].ready) == Connecting ==>
                sockets[id].ready == Open && sockets[id].waiting == None
                && sockets[id].sent == old(sockets[id].sent) + Waiting(old(sockets[id].waiting))
    {
      if sockets[id].ready != Connecting {
        return;
      }
      var waiting := sockets[id].waiting;
      sockets := sockets[id := sockets[id].(ready := Open, waiting := None)];
      isOpen := true;
      if waiting.Some? {
        sockets := Deliver(sockets, slot, waiting.value);
      }
    }

    /**
      A message event on socket `id`. The browser delivers it only while the
      socket is OPEN; then the frame's callbacks are made in `Dispatch` order.
     */
    method OnMessage(id: nat, frame: Frame)
      requires Valid() && id < |sockets|
      modifies this`calls
      ensures Valid()
      ensures calls == old(calls) + if sockets[id].ready == Open then Dispatch(frame, hasOnError) else []
    {
      if sockets[id].ready == Open {
        calls := calls + Dispatch(frame, hasOnError);
      }
    }

    /**
      The error event of socket `id` (never after its close event): report the
      error once, then close that same socket. As written, a socket that is
      no longer in the slot still reports; the corrected handler stays silent
      for it.
     */
    method OnError(id: nat)
      requires Valid() && id < |sockets|
      modifies this`calls, this`sockets
      ensures Valid()
      ensures old(sockets[id].ready) == Closed ==> calls == old(calls) && sockets == old(sockets)
      ensures old(sockets[id].ready) != Closed ==> sockets == old(sockets)[id := RequestClose(old(sockets[id]))]
      ensures old(sockets[id].ready) != Closed && (!guardReplaced || old(slot) == Some(id)) ==>
                calls == old(calls) + Report(TransportFailure, hasOnError)
      ensures guardReplaced && old(slot) != Some(id) ==> calls == old(calls)
    {
      if sockets[id].ready == Closed {
        return;
      }
      if !guardReplaced || slot == Some(id) {
        calls := calls + Report(TransportFailure, hasOnError);
      }
      sockets := sockets[id := RequestClose(sockets[id])];
    }

    /**
      The close event of socket `id`, fired once. As written, `onclose` empties
      the slot and clears the flag even when a newer socket is in the slot.
     */
    method OnClose(id: nat)
      requires Valid() && id < |sockets|
      modifies this`slot, this`isOpen, this`sockets
      ensures Valid()
      ensures old(sockets[id].ready) == Closed ==> slot == old(slot) && isOpen == old(isOpen) && sockets == old(sockets)
      ensures old(sockets[id].ready) != Closed ==> sockets == old(sockets)[id := old(sockets[id]).(ready := Closed)]
      ensures old(sockets[id].ready) != Closed && (!guardReplaced || old(slot) == Some(id)) ==> slot == None && !isOpen
      ensures old(sockets[id].ready) != Closed && guardReplaced && old(slot) != Some(id) ==>
                slot == old(slot) && isOpen == old(isOpen)
    {
      if sockets[id].ready == Closed {
        return;
      }
      sockets := sockets[id := sockets[id].(ready := Closed)];
      if !guardReplaced || slot == Some(id) {
        slot := None;
        isOpen := false;
      }
    }

    /**
      `closeConnection` (and its alias `stopStream`): close the socket in the
      slot; with an empty slot nothing happens. The slot itself is emptied
      only by the close event that follows.
     */
    method CloseConnection()
      requires Valid()
      modifies this`sockets
      ensures Valid()
      ensures old(slot).None? ==> sockets == old(sockets)
      ensures old(slot).Some? ==> sockets == old(sockets)[slot.value := RequestClose(old(sockets[slot.value]))]
    {
      if slot.Some? {
        sockets := sockets[slot.value := RequestClose(sockets[slot.value])];
      }
    }
  }

  /**
    Two sends in a row, then the close event of the first, replaced socket,
    with the close handler as written: the stale close empties the slot, so the
    second socket's deferred message finds no socket when it opens and is never
    sent, and the next send does not close the second socket, leaving two live.
   */
  method StaleCloseAsWritten() returns (live: nat, secondSent: seq<string>)
    ensures live == 2 && secondSent == []
  {
    var hook := new StreamHook(true, false);
    hook.StartStream("s", "first");
    hook.StartStream("s", "second");
    assert hook.sockets[0].ready == Closing && hook.slot == Some(1);
    hook.OnClose(0);
    assert hook.slot == None;
    assert hook.sockets[1] == Socket("s", Connecting, [], Some("second"));
    hook.OnOpen(1);
    assert hook.sockets[1].ready == Open;
    secondSent := hook.sockets[1].sent;
    assert secondSent == [];
    hook.StartStream("s", "third");
    var ss := hook.sockets;
    assert |ss| == 3 && ss[0].ready == Closed && ss[1].ready == Open && ss[2].ready == Connecting;
    assert LiveCount(ss[1..][1..][1..]) == 0;
    assert LiveCount(ss[1..][1..]) == 1;
    assert LiveCount(ss) == 2;
    live := LiveCount(ss);
  }

  /**
    A second send before the first socket has opened: the first socket is
    asked to close, so a frame that still arrives on it makes no callback,
    while the same frame on the new socket, once it is open, does. The
    replaced socket's error event still reports an error to the caller.
   */
  method ReplacedSocketScenario() returns (lateCalls: seq<Call>, liveCalls: seq<Call>, staleErrors: seq<Call>)
    ensures lateCalls == []
    ensures liveCalls == [Token(JStr("Hi"))]
    ensures staleErrors == [Error(TransportFailure)]
  {
    var hook := new StreamHook(true, false);
    hook.StartStream("s1", "hi");
    hook.StartStream("s1", "bye");
    assert hook.sockets[0].ready == Closing && hook.sockets[1].ready == Connecting;
    var frame := Parsed(JObj(map["token" := JStr("Hi")]));
    hook.OnMessage(0, frame);
    lateCalls := hook.calls;
    hook.OnOpen(1);
    assert hook.sockets[1].ready == Open;
    hook.OnMessage(1, frame);
    assert Field(frame.value, "end") == None && Field(frame.value, "error") == None;
    liveCalls := hook.calls;
    var before := |hook.calls|;
    hook.OnError(0);
    staleErrors := hook.calls[before..];
  }

  /**
    The same events with the corrected handlers: the replaced socket's late
    frame and its error event both stay away from the caller, while the new
    socket's frame still arrives.
   */
  method ReplacedSocketGuarded() returns (lateCalls: seq<Call>, liveCalls: seq<Call>, staleErrors: seq<Call>)
    ensures lateCalls == []
    ensures liveCalls == [Token(JStr("Hi"))]
    ensures staleErrors == []
  {
    var hook := new StreamHook(true, true);
    hook.StartStream("s1", "hi");
    hook.StartStream("s1", "bye");
    assert hook.sockets[0].ready == Closing && hook.sockets[1].ready == Connecting;
    var frame := Parsed(JObj(map["token" := JStr("Hi")]));
    hook.OnMessage(0, frame);
    lateCalls := hook.calls;
    hook.OnOpen(1);
    assert hook.sockets[1].ready == Open;
    hook.OnMessage(1, frame);
    assert Field(frame.value, "end") == None && Field(frame.value, "error") == None;
    liveCalls := hook.calls;
    var before := |hook.calls|;
    hook.OnError(0);
    staleErrors := hook.calls[before..];
  }

  /** The same events with the corrected close handler: the second message is sent on its socket, and one socket stays live. */
  method StaleCloseGuarded() returns (live: nat, secondSent: seq<string>)
    ensures live == 1 && secondSent == ["second"]
  {
    var hook := new StreamHook(true, true);
    hook.StartStream("s", "first");
    hook.StartStream("s", "second");
    assert hook.sockets[0].ready == Closing && hook.slot == Some(1);
    hook.OnClose(0);
    assert hook.slot == Some(1);
    assert hook.sockets[1] == Socket("s", Connecting, [], Some("second"));
    hook.OnOpen(1);
    assert hook.sockets[1].ready == Open;
    secondSent := hook.sockets[1].sent;
    assert secondSent == ["second"];
    hook.StartStream("s", "third");
    var ss := hook.sockets;
    assert |ss| == 3 && ss[0].ready == Closed && ss[1].ready == Closing && ss[2].ready == Connecting;
    assert LiveCount(ss[1..][1..][1..]) == 0;
    assert LiveCount(ss[1..][1..]) == 1;
    assert LiveCount(ss) == 1;
    live := LiveCount(ss);
  }
}
