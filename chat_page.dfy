/**
  The chat screen of the front end (frontend/src/app/page.tsx): the callbacks it
  gives the streaming hook, and the handlers that send a message, start a new
  chat and select a session.

  The screen's React state and refs are the fields of `ChatPage`. The refs that
  effects keep equal to a state value (the streaming message id and the active
  session id, lines 89-90) are that state value. Each handler runs to
  completion, and its state updates take effect together when it returns.
  Calls into the streaming hook are recorded in `streamCalls` rather than run;
  the hook is modelled in module ChatStream.
 */
module ChatPage {
  import opened Wrappers
  import opened Text
  import opened Messages

  datatype Session = Session(id: string, title: Option<string>, messages: seq<Message>)

  /** A history entry handed to the stream: a message without its id. */
  datatype Turn = Turn(role: Role, content: string)

  /** A call the screen makes into the streaming hook. */
  datatype StreamCall = Start(history: seq<Turn>) | Stop

  /** The "Streaming Error" toast, with its description. */
  datatype Toast = StreamingError(description: string)

  /** JavaScript truthiness of an optional id: present and not the empty string. */
  predicate Present(id: Option<string>) {
    id.Some? && id.value != []
  }

  /** The fragments joined in arrival order. */
  function Concat(parts: seq<string>): string {
    if parts == [] then "" else parts[0] + Concat(parts[1..])
  }

  /** Appending to the buffer one fragment at a time builds the same text as joining them all. */
  lemma {:induction false} ConcatAppend(parts: seq<string>, part: string)
    ensures Concat(parts + [part]) == Concat(parts) + part
  {
    if parts == [] {
      assert [] + [part] == [part];
    } else {
      assert (parts + [part])[1..] == parts[1..] + [part];
      ConcatAppend(parts[1..], part);
    }
  }

  /** `sessions.find(s => s.id === id)`: the first session with that id. */
  function FindSession(sessions: seq<Session>, id: string): (r: Option<Session>)
    ensures r.None? <==> forall i :: 0 <= i < |sessions| ==> sessions[i].id != id
    ensures r.Some? ==> exists i :: 0 <= i < |sessions| && sessions[i] == r.value && r.value.id == id
                                    && forall j :: 0 <= j < i ==> sessions[j].id != id
  {
    if sessions == [] then None
    else if sessions[0].id == id then Some(sessions[0])
    else FindSession(sessions[1..], id)
  }

  /**
    `sessions.map(s => s.id === id ? { ...s, messages: f(s.messages) } : s)`:
    every session with that id gets new messages, every other session is kept,
    and the order, ids and titles do not change.
   */
  function UpdateMessages(sessions: seq<Session>, id: string, f: seq<Message> -> seq<Message>): (r: seq<Session>)
    ensures |r| == |sessions|
    ensures forall i :: 0 <= i < |sessions| ==>
              r[i] == if sessions[i].id == id then sessions[i].(messages := f(sessions[i].messages)) else sessions[i]
  {
    if sessions == [] then []
    else
      [if sessions[0].id == id then sessions[0].(messages := f(sessions[0].messages)) else sessions[0]]
      + UpdateMessages(sessions[1..], id, f)
  }

  /** After an update, looking up the updated id finds the updated session, and looking up any other id finds what it found before. */
  lemma {:induction false} FindAfterUpdate(sessions: seq<Session>, id: string, f: seq<Message> -> seq<Message>, lookup: string)
    ensures FindSession(UpdateMessages(sessions, id, f), lookup)
         == match FindSession(sessions, lookup)
            case None => None
            case Some(s) => Some(if lookup == id then s.(messages := f(s.messages)) else s)
  {
    if sessions != [] {
      var updated := UpdateMessages(sessions, id, f);
      assert updated[1..] == UpdateMessages(sessions[1..], id, f);
      FindAfterUpdate(sessions[1..], id, f, lookup);
    }
  }

  /** `after` is `before` with the messages of every session whose id is `id` set to `ms`, and nothing else changed. */
  predicate MessagesReplaced(before: seq<Session>, after: seq<Session>, id: string, ms: seq<Message>) {
    |after| == |before|
    && forall i :: 0 <= i < |before| ==>
         after[i] == if before[i].id == id then before[i].(messages := ms) else before[i]
  }

  /** `messages.map(({ role, content }) => ({ role, content }))`. */
  function History(messages: seq<Message>): (r: seq<Turn>)
    ensures |r| == |messages|
    ensures forall i :: 0 <= i < |messages| ==> r[i] == Turn(messages[i].role, messages[i].content)
  {
    if messages == [] then [] else [Turn(messages[0].role, messages[0].content)] + History(messages[1..])
  }

  class ChatPage {
    var messages: seq<Message>
    var sessions: seq<Session>
    var activeSessionId: Option<string>
    var input: string
    var isLoading: bool
    /** The partial reply on screen. */
    var streamingMessage: Option<string>
    var streamingMessageId: Option<string>
    /** `fullMessageRef.current`: the reply text buffered for the flush. */
    var fullMessage: string
    /** The fragments received since the buffer was last emptied. */
    ghost var fragments: seq<string>
    var streamCalls: seq<StreamCall>
    var toasts: seq<Toast>

    /**
      The buffer is the fragments since the last reset, joined in arrival
      order, and a turn is loading exactly while a reply id is reserved.
     */
    ghost predicate Valid()
      reads this
    {
      fullMessage == Concat(fragments) && isLoading == streamingMessageId.Some?
    }

    /** The screen after mounting, with the session list it loads. */
    constructor (initialSessions: seq<Session>)
      ensures Valid()
      ensures messages == [] && sessions == initialSessions && activeSessionId == None && input == ""
      ensures !isLoading && streamingMessage == None && streamingMessageId == None && fullMessage == ""
      ensures fragments == [] && streamCalls == [] && toasts == []
    {
      messages := [];
      sessions := initialSessions;
      activeSessionId := None;
      input := "";
      isLoading := false;
      streamingMessage := None;
      streamingMessageId := None;
      fullMessage := "";
      fragments := [];
      streamCalls := [];
      toasts := [];
    }

    /** `onToken`: append the fragment to the buffer and to the text on screen. */
    method OnToken(token: string)
      requires Valid()
      modifies this`fullMessage, this`fragments, this`streamingMessage
      ensures Valid()
      ensures fragments == old(fragments) + [token] && fullMessage == old(fullMessage) + token
      ensures streamingMessage == Some(old(streamingMessage).GetOr("") + token)
    {
      ConcatAppend(fragments, token);
      fullMessage := fullMessage + token;
      fragments := fragments + [token];
      streamingMessage := Some(streamingMessage.GetOr("") + token);
    }

    /**
      `onEnd`: when a reply id, a non-empty buffer and an active session are all
      present, append one assistant message holding the buffer to the messages
      and to the active session only; then end the turn.
     */
    method OnEnd()
      requires Valid()
      modifies this`messages, this`sessions, this`streamingMessage, this`streamingMessageId,
               this`fullMessage, this`fragments, this`isLoading
      ensures Valid()
      ensures var flush := Present(old(streamingMessageId)) && old(fullMessage) != [] && Present(old(activeSessionId));
              if flush then
                var reply := Message(old(streamingMessageId).value, Assistant, Concat(old(fragments)));
                messages == old(messages) + [reply]
                && |sessions| == |old(sessions)|
                && forall i :: 0 <= i < |sessions| ==>
                     sessions[i] == if old(sessions[i]).id == old(activeSessionId).value
                                    then old(sessions[i]).(messages := old(sessions[i]).messages + [reply])
                                    else old(sessions[i])
              else
                messages == old(messages) && sessions == old(sessions)
      ensures streamingMessage == None && streamingMessageId == None && fullMessage == "" && fragments == [] && !isLoading
    {
      var msgId := streamingMessageId;
      var sessionId := activeSessionId;
      if Present(msgId) && fullMessage != [] && Present(sessionId) {
        var reply := Message(msgId.value, Assistant, fullMessage);
        messages := messages + [reply];
        sessions := UpdateMessages(sessions, sessionId.value, ms => ms + [reply]);
      }
      streamingMessage := None;
      streamingMessageId := None;
      fullMessage := "";
      fragments := [];
      isLoading := false;
    }

    /** `onError`: drop the buffer and end the turn; no message is added. */
    method OnError(description: string)
      requires Valid()
      modifies this`streamingMessage, this`streamingMessageId, this`fullMessage, this`fragments,
               this`isLoading, this`toasts
      ensures Valid()
      ensures streamingMessage == None && streamingMessageId == None && fullMessage == "" && fragments == [] && !isLoading
      ensures toasts == old(toasts) + [StreamingError(description)]
    {
      streamingMessage := None;
      streamingMessageId := None;
      fullMessage := "";
      fragments := [];
      isLoading := false;
      toasts := toasts + [StreamingError(description)];
    }

    /** `abortStream`: stop the stream and end the turn; the buffer is left as it is. */
    method AbortStream()
      requires Valid()
      modifies this`streamCalls, this`streamingMessage, this`streamingMessageId, this`isLoading
      ensures Valid()
      ensures streamCalls == old(streamCalls) + [Stop]
      ensures streamingMessage == None && streamingMessageId == None && !isLoading
    {
      streamCalls := streamCalls + [Stop];
      streamingMessage := None;
      streamingMessageId := None;
      isLoading := false;
    }

    /**
      `handleSendMessage`, with the three fresh ids as parameters. Blank input or
      a loading turn changes nothing. Otherwise the user message is appended, a
      turn starts, and either a new session holding only that message is put
      first and made active, or the active session's messages become the new list.
     */
    method HandleSendMessage(userMessageId: string, replyId: string, newSessionId: string)
      requires Valid()
      modifies this`messages, this`sessions, this`activeSessionId, this`input, this`isLoading,
               this`streamingMessage, this`streamingMessageId, this`fullMessage, this`fragments, this`streamCalls
      ensures Valid()
      ensures JsBlank(old(input)) || old(isLoading) ==>
                messages == old(messages) && sessions == old(sessions) && activeSessionId == old(activeSessionId)
                && input == old(input) && isLoading == old(isLoading) && streamingMessage == old(streamingMessage)
                && streamingMessageId == old(streamingMessageId) && fullMessage == old(fullMessage)
                && fragments == old(fragments) && streamCalls == old(streamCalls)
      ensures !JsBlank(old(input)) && !old(isLoading) ==>
                var sent := Message(userMessageId, User, old(input));
                messages == old(messages) + [sent]
                && input == "" && isLoading && streamingMessage == Some("") && streamingMessageId == Some(replyId)
                && fullMessage == "" && fragments == []
                && streamCalls == old(streamCalls) + [Start(History(old(messages) + [sent]))]
                && (!Present(old(activeSessionId)) ==>
                      sessions == [Session(newSessionId, Some(old(input)), [sent])] + old(sessions)
                      && activeSessionId == Some(newSessionId))
                && (Present(old(activeSessionId)) ==>
                      activeSessionId == old(activeSessionId)
                      && MessagesReplaced(old(sessions), sessions, old(activeSessionId).value, old(messages) + [sent]))
    {
      if JsBlank(input) || isLoading {
        return;
      }
      var userMessage := Message(userMessageId, User, input);
      var newMessages := messages + [userMessage];
      messages := newMessages;
      var currentInput := input;
      input := "";
      isLoading := true;
      streamingMessage := Some("");
      fullMessage := "";
      fragments := [];
      streamingMessageId := Some(replyId);
      var sessionToUpdateId := activeSessionId;
      if !Present(sessionToUpdateId) {
        sessions := [Session(newSessionId, Some(currentInput), [userMessage])] + sessions;
        activeSessionId := Some(newSessionId);
      } else {
        var before := sessions;
        var id := sessionToUpdateId.value;
        sessions := UpdateMessages(before, id, _ => newMessages);
        assert MessagesReplaced(before, sessions, id, newMessages);
      }
      streamCalls := streamCalls + [Start(History(newMessages))];
    }

    /** Typing in the message box. */
    method EditInput(text: string)
      requires Valid()
      modifies this`input
      ensures Valid() && input == text
    {
      input := text;
    }

    /** `handleNewChat`: no active session and no messages; the session list is kept. */
    method HandleNewChat()
      requires Valid()
      modifies this`activeSessionId, this`messages
      ensures Valid()
      ensures activeSessionId == None && messages == []
    {
      activeSessionId := None;
      messages := [];
    }

    /** `handleSessionSelect`: an id in the list becomes active and shows its messages; an unknown id changes nothing. */
    method HandleSessionSelect(id: string)
      requires Valid()
      modifies this`activeSessionId, this`messages
      ensures Valid()
      ensures FindSession(sessions, id).None? ==> activeSessionId == old(activeSessionId) && messages == old(messages)
      ensures FindSession(sessions, id).Some? ==>
                activeSessionId == Some(id) && messages == FindSession(sessions, id).value.messages
    {
      var session := FindSession(sessions, id);
      if session.Some? {
        activeSessionId := Some(id);
        messages := session.value.messages;
      }
    }
  }

  /**
    One streamed turn in a fresh chat: the user sends "hello", the reply
    arrives as "Hi" and " there", then the end frame. The new session and the
    screen both end with the user message followed by one assistant message
    "Hi there", and the turn is over.
   */
  method StreamedTurnScenario() returns (shown: seq<Message>, stored: seq<Session>, loading: bool)
    ensures shown == [Message("u1", User, "hello"), Message("a1", Assistant, "Hi there")]
    ensures stored == [Session("s1", Some("hello"), shown)]
    ensures !loading
  {
    var page := new ChatPage([]);
    page.EditInput("hello");
    assert page.input[0] == 'h' && !IsJsSpace('h');
    page.HandleSendMessage("u1", "a1", "s1");
    page.OnToken("Hi");
    page.OnToken(" there");
    assert page.fullMessage == "Hi there";
    assert page.sessions == [Session("s1", Some("hello"), [Message("u1", User, "hello")])];
    page.OnEnd();
    assert |page.sessions| == 1 && page.sessions[0] == Session("s1", Some("hello"), page.messages);
    shown, stored, loading := page.messages, page.sessions, page.isLoading;
  }

  /**
    Two fragments followed by an error frame: no assistant message is added
    anywhere, the partial text "ab" is dropped, and one error toast is shown.
   */
  method ErrorAfterTokensScenario() returns (shown: seq<Message>, stored: seq<Session>, buffer: string, toastCount: nat)
    ensures shown == [Message("u1", User, "hello")]
    ensures stored == [Session("s1", Some("hello"), shown)]
    ensures buffer == "" && toastCount == 1
  {
    var page := new ChatPage([]);
    page.EditInput("hello");
    assert page.input[0] == 'h' && !IsJsSpace('h');
    page.HandleSendMessage("u1", "a1", "s1");
    page.OnToken("a");
    page.OnToken("b");
    page.OnError("boom");
    shown, stored, buffer, toastCount := page.messages, page.sessions, page.fullMessage, |page.toasts|;
  }
}
