/**
  The older single-screen chat (src/app/page.tsx): one request and one reply per
  turn, an API key kept in browser storage, and a configuration dialog.

  The screen's React state is the fields of `LegacyChat`, and browser storage
  under the key "uni-chat-api-key" is `storedKey`. `handleSendMessage` awaits
  the model's reply, so it is modelled in two halves: `HandleSendMessage` runs
  up to the await and records the turn in `pending`, and `Settle` runs the rest
  once the reply or the failure arrives. Other handlers may run in between, as
  they can on the page. Fresh message ids are parameters.
 */
module LegacyChat {
  import opened Wrappers
  import opened Text
  import opened Messages

  /** The toasts the screen shows. */
  datatype Toast = KeyRequired | KeySaved | KeyNotConfigured | ResponseFailed

  /** How the awaited call to the model ended: with its `response` text, or by throwing. */
  datatype Outcome = Replied(response: string) | Failed

  /**
    A turn waiting for its reply: the message list the handler saw when it
    started, and the user message it appended.
   */
  datatype PendingSend = PendingSend(before: seq<Message>, sent: Message)

  /** JavaScript truthiness of a nullable string. */
  predicate Truthy(s: Option<string>) {
    s.Some? && s.value != []
  }

  /** `messages.filter(m => m.id !== id)`: the messages with another id, in their order. */
  function WithoutId(messages: seq<Message>, id: string): (r: seq<Message>)
    ensures |r| <= |messages|
    ensures forall m :: m in r <==> m in messages && m.id != id
  {
    if messages == [] then []
    else (if messages[0].id != id then [messages[0]] else []) + WithoutId(messages[1..], id)
  }

  /** On a single message the filter keeps it or drops it. */
  lemma WithoutIdSingle(m: Message, id: string)
    ensures WithoutId([m], id) == if m.id != id then [m] else []
  {
    assert [m][1..] == [];
  }

  /**
    The filter distributes over concatenation; with `WithoutIdSingle` this
    says that it keeps the remaining messages in their order and with their
    repetitions, as `Array.prototype.filter` does.
   */
  lemma {:induction false} WithoutIdConcat(a: seq<Message>, b: seq<Message>, id: string)
    ensures WithoutId(a + b, id) == WithoutId(a, id) + WithoutId(b, id)
  {
    if a == [] {
      assert [] + b == b;
    } else {
      var head := if a[0].id != id then [a[0]] else [];
      assert (a + b)[0] == a[0] && (a + b)[1..] == a[1..] + b;
      calc {
        WithoutId(a + b, id);
        head + WithoutId(a[1..] + b, id);
        { WithoutIdConcat(a[1..], b, id); }
        head + (WithoutId(a[1..], id) + WithoutId(b, id));
        (head + WithoutId(a[1..], id)) + WithoutId(b, id);
      }
    }
  }

  /** Filtering out an id no message has leaves the list as it is. */
  lemma {:induction false} WithoutAbsentId(messages: seq<Message>, id: string)
    requires forall i :: 0 <= i < |messages| ==> messages[i].id != id
    ensures WithoutId(messages, id) == messages
  {
    if messages != [] {
      WithoutAbsentId(messages[1..], id);
      assert [messages[0]] + messages[1..] == messages;
    }
  }

  /** Filtering out a freshly sent message's id from the list it was appended to gives back the list before the send. */
  lemma {:induction false} WithoutSentMessage(before: seq<Message>, sent: Message)
    requires forall i :: 0 <= i < |before| ==> before[i].id != sent.id
    ensures WithoutId(before + [sent], sent.id) == before
  {
    if before == [] {
      assert [] + [sent] == [sent];
      assert WithoutId([sent][1..], sent.id) == [];
    } else {
      assert (before + [sent])[1..] == before[1..] + [sent];
      WithoutSentMessage(before[1..], sent);
      assert [before[0]] + before[1..] == before;
    }
  }

  class LegacyChat {
    var messages: seq<Message>
    var input: string
    var apiKey: Option<string>
    var apiKeyInput: string
    var dialogOpen: bool
    var isLoading: bool
    /** Browser storage under "uni-chat-api-key". */
    var storedKey: Option<string>
    /** The turn whose reply is awaited, if any. */
    var pending: Option<PendingSend>
    var toasts: seq<Toast>

    /** A turn is loading exactly while its reply is awaited, and a key in use is never empty. */
    ghost predicate Valid()
      reads this
    {
      isLoading == pending.Some? && (apiKey.Some? ==> apiKey.value != [])
    }

    /** The screen after mounting: an empty chat, with the stored key in use when storage holds a non-empty one. */
    constructor (stored: Option<string>)
      ensures Valid()
      ensures messages == [] && input == "" && !dialogOpen && !isLoading && pending == None && toasts == []
      ensures storedKey == stored
      ensures apiKey == (if Truthy(stored) then stored else None)
      ensures apiKeyInput == (if Truthy(stored) then stored.value else "")
    {
      messages := [];
      input := "";
      dialogOpen := false;
      isLoading := false;
      pending := None;
      toasts := [];
      storedKey := stored;
      if Truthy(stored) {
        apiKey := stored;
        apiKeyInput := stored.value;
      } else {
        apiKey := None;
        apiKeyInput := "";
      }
    }

    /** Typing in the message box. */
    method EditInput(text: string)
      requires Valid()
      modifies this`input
      ensures Valid() && input == text
    {
      input := text;
    }

    /** Typing in the dialog's key box. */
    method EditApiKeyInput(text: string)
      requires Valid()
      modifies this`apiKeyInput
      ensures Valid() && apiKeyInput == text
    {
      apiKeyInput := text;
    }

    /**
      `handleConfigureLlm`: an empty key is refused and nothing else changes;
      any other key is put in use, stored, and the dialog closes.
     */
    method HandleConfigureLlm()
      requires Valid()
      modifies this`apiKey, this`storedKey, this`dialogOpen, this`toasts
      ensures Valid()
      ensures old(apiKeyInput) == [] ==>
                apiKey == old(apiKey) && storedKey == old(storedKey) && dialogOpen == old(dialogOpen)
                && toasts == old(toasts) + [KeyRequired]
      ensures old(apiKeyInput) != [] ==>
                apiKey == Some(old(apiKeyInput)) && storedKey == Some(old(apiKeyInput)) && !dialogOpen
                && toasts == old(toasts) + [KeySaved]
    {
      if apiKeyInput == [] {
        toasts := toasts + [KeyRequired];
        return;
      }
      apiKey := Some(apiKeyInput);
      storedKey := Some(apiKeyInput);
      toasts := toasts + [KeySaved];
      dialogOpen := false;
    }

    /**
      `handleSendMessage` up to the await. Blank input or a loading turn changes
      nothing; without a key the dialog opens and no message is added; otherwise
      the user message is appended, the input cleared, and the turn starts.
     */
    method HandleSendMessage(userMessageId: string)
      requires Valid()
      modifies this`messages, this`input, this`isLoading, this`pending, this`dialogOpen, this`toasts
      ensures Valid()
      ensures JsBlank(old(input)) || old(isLoading) ==>
                messages == old(messages) && input == old(input) && isLoading == old(isLoading)
                && pending == old(pending) && dialogOpen == old(dialogOpen) && toasts == old(toasts)
      ensures !JsBlank(old(input)) && !old(isLoading) && !Truthy(old(apiKey)) ==>
                messages == old(messages) && input == old(input) && !isLoading && pending == None
                && dialogOpen && toasts == old(toasts) + [KeyNotConfigured]
      ensures !JsBlank(old(input)) && !old(isLoading) && Truthy(old(apiKey)) ==>
                var sent := Message(userMessageId, User, old(input));
                messages == old(messages) + [sent] && input == "" && isLoading
                && pending == Some(PendingSend(old(messages), sent))
                && dialogOpen == old(dialogOpen) && toasts == old(toasts)
    {
      if JsBlank(input) || isLoading {
        return;
      }
      if !Truthy(apiKey) {
        toasts := toasts + [KeyNotConfigured];
        dialogOpen := true;
        return;
      }
      var userMessage := Message(userMessageId, User, input);
      pending := Some(PendingSend(messages, userMessage));
      messages := messages + [userMessage];
      input := "";
      isLoading := true;
    }

    /**
      `handleSendMessage` after the await. A reply is appended to the messages as
      they are now; a failure puts back the list the handler saw when it started,
      without the sent message, whatever happened in between. Either way the
      turn ends.
     */
    method Settle(outcome: Outcome, replyId: string)
      requires Valid() && pending.Some?
      modifies this`messages, this`isLoading, this`pending, this`toasts
      ensures Valid()
      ensures outcome.Replied? ==>
                messages == old(messages) + [Message(replyId, Assistant, outcome.response)] && toasts == old(toasts)
      ensures outcome.Failed? ==>
                messages == WithoutId(old(pending).value.before, old(pending).value.sent.id)
                && toasts == old(toasts) + [ResponseFailed]
      ensures !isLoading && pending == None
    {
      var turn := pending.value;
      match outcome {
        case Replied(response) =>
          messages := messages + [Message(replyId, Assistant, response)];
        case Failed =>
          messages := WithoutId(turn.before, turn.sent.id);
          toasts := toasts + [ResponseFailed];
      }
      isLoading := false;
      pending := None;
    }

    /** `handleNewChat`: the messages are cleared; a turn in flight goes on. */
    method HandleNewChat()
      requires Valid()
      modifies this`messages
      ensures Valid() && messages == []
    {
      messages := [];
    }

    /**
      A whole turn with no other handler running during the await. With a
      non-blank input, no turn loading and a key in use, a reply leaves the
      previous messages followed by the user message and the reply, and a
      failure with a fresh user message id leaves the previous messages.
     */
    method SendTurn(userMessageId: string, outcome: Outcome, replyId: string)
      requires Valid()
      requires !JsBlank(input) && !isLoading && Truthy(apiKey)
      modifies this`messages, this`input, this`isLoading, this`pending, this`dialogOpen, this`toasts
      ensures Valid() && !isLoading && pending == None && input == ""
      ensures outcome.Replied? ==>
                messages == old(messages) + [Message(userMessageId, User, old(input)),
                                             Message(replyId, Assistant, outcome.response)]
      ensures outcome.Failed? && (forall i :: 0 <= i < |old(messages)| ==> old(messages)[i].id != userMessageId) ==>
                messages == old(messages)
    {
      HandleSendMessage(userMessageId);
      Settle(outcome, replyId);
      if outcome.Failed? && forall i :: 0 <= i < |old(messages)| ==> old(messages)[i].id != userMessageId {
        WithoutAbsentId(old(messages), userMessageId);
      }
    }
  }
}
