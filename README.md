# Uni-Chat chat core in Dafny

This project models the core of Uni-Chat, a chat application in which a web
front end talks to a FastAPI back end that forwards questions to a language
model. The model covers five parts:

- **Streaming hook** (`chat_stream.dfy`, module `ChatStream`). This is the
  front end's `useChatStream`. It holds one WebSocket reference and replaces it
  on every `connect`. It decodes each incoming frame into `onToken`, `onEnd`
  and `onError` calls. `startStream` sends the user's message once the socket
  opens. The browser's sockets are a sequence of records with a ready state.
  The browser's socket events are methods of the class `StreamHook`.
- **Chat screen** (`chat_page.dfy`, module `ChatPage`). This is the front
  end's page. It holds the turn buffer filled by `onToken`, the guarded flush
  in `onEnd`, and the discard in `onError`. It also holds the session list and
  the send, new-chat and select handlers. The session-list updates are pure
  functions, and the handlers are methods of the class `ChatPage`.
- **Older chat screen** (`legacy_chat.dfy`, module `LegacyChat`). It makes one
  request and gets one reply per turn. The API key is kept in browser storage.
  `handleSendMessage` awaits the model, so it is split in two. The first half
  runs up to the await; `Settle` runs the rest.
- **Back-end configuration rules** (`llm_configs.dfy`, module `LlmConfigs`).
  These are the GROQ setup endpoint and the "has a configuration" query over a
  table of configurations.
- **API-key validation** (`validation.dfy`, module `Validation`). It turns the
  outcome of one test call to the model into a result record. It classifies
  exceptions by keywords in their lower-cased text.

The shared modules are small. `Wrappers` holds `Option` and `Result`.
`Messages` holds the chat message record. `Text` holds JavaScript `trim` and
Python `strip` whitespace, ASCII lower-casing and substring search.

Calls the model cannot see become parameters:

- the model's reply or exception (`LlmOutcome`, `Outcome`);
- fresh ids from `crypto.randomUUID` and the database;
- decoded socket frames (`Frame`);
- the stored API key read at mount.

Callbacks made by the hook are recorded in a `calls` log rather than run.
Calls from the chat screen into the hook are recorded in `streamCalls`.

Where the code and its documentation differ, the model follows the code.

- The chat screen calls `startStream` with one argument, the message history
  (frontend/src/app/page.tsx:238). The hook takes a session id and a message
  text (frontend/src/hooks/use-chat-stream.ts:59). Each side is modelled as
  written; `Start(history)` records what the screen passes.
- The validation service calls `process_query` with two arguments
  (backend/app/services/validation_service.py:29). That function takes one.
  The call is replaced by its outcome.
- `startStream`'s immediate-send branch can never run, because `connect`
  always leaves a fresh CONNECTING socket in the slot. The model keeps the
  branch. `StreamHook.StartStream` proves that the message always waits in an
  "open" listener.

## Model

| member | source | states |
|---|---|---|
| Text.TrimStart | frontend/src/app/page.tsx:202 | the result is a suffix of the input that starts with a non-space, and every character dropped is a space |
| Text.TrimEnd | frontend/src/app/page.tsx:202 | the result is a prefix of the input that ends with a non-space, and every character dropped is a space |
| Text.TrimEmptyIffAllSpace | frontend/src/app/page.tsx:202 | trimming gives the empty string exactly when every character is a space, in both directions |
| Text.JsBlankIsEmptyTrim | frontend/src/app/page.tsx:202 | `!input.trim()` holds exactly when the input is all JavaScript whitespace |
| Text.PyBlankIsEmptyStrip | backend/app/services/validation_service.py:31 | `not text.strip()` holds exactly when the text is all Python whitespace |
| Text.Lower | backend/app/services/validation_service.py:47 | lower-casing keeps the length and maps each character independently |
| Text.LowerKeepsContains | backend/app/services/validation_service.py:47-49 | an occurrence of a word in the message is still an occurrence after both are lower-cased |
| Text.LowerIdempotent | backend/app/services/validation_service.py:47 | lower-casing twice is lower-casing once |
| Validation.Preview | backend/app/services/validation_service.py:36 | text of at most 100 characters is kept; longer text becomes its first 100 characters followed by "..." |
| Validation.ValidateGroqApiKey | backend/app/services/validation_service.py:7-72 | a key is valid exactly when the call returned a reply whose text is not blank; a valid result carries the fixed message, the model name and the preview; an empty reply gives the "No response received" failure with the model name; every exception gives a failure with no model or preview and an error type from the classification; its message is the fixed authentication text, the model-access text naming the model, the fixed quota text, or for the unknown kind the exception text |
| Validation.ClassifyByKeywordGroups | backend/app/services/validation_service.py:47-72 | the kind is authentication exactly when an authentication keyword occurs; otherwise it is model access exactly when a model keyword occurs; otherwise it is quota exactly when a quota keyword occurs; otherwise it is unknown |
| Validation.ClassifyIgnoresCase | backend/app/services/validation_service.py:47 | the classification of a message equals that of its lower-cased form |
| Validation.AuthenticationWins | backend/app/services/validation_service.py:49-54 | an authentication keyword in any case anywhere in the message forces the authentication kind, whatever other keywords occur |
| Validation.ModelAccessBeatsQuota | backend/app/services/validation_service.py:55-66 | without an authentication keyword, a model keyword in any case forces the model-access kind even when quota keywords occur |
| Validation.UnknownCarriesError | backend/app/services/validation_service.py:67-72 | an unknown failure mentions none of the nine keywords, and its result is exactly the failure carrying the exception text with error type "unknown" |
| LlmConfigs.UserConfigs | backend/app/crud.py:41-42 | the user's configurations are exactly the rows with their user id |
| LlmConfigs.FirstDefault | backend/app/routers/users.py:84 | no default is found exactly when no configuration is marked default; otherwise the result is the first one so marked |
| LlmConfigs.FirstDefaultOfUser | backend/app/routers/users.py:81-84 | the default found through the user's list is the user's first default row in store order |
| LlmConfigs.FirstDefaultInStore | backend/app/routers/users.py:81-84 | the same fact, stated as the existence of that row in the store |
| LlmConfigs.CheckUserHasLlmConfig | backend/app/routers/users.py:78-85 | `has_config` holds exactly when some row is the user's; the default is absent exactly when none of the user's rows is default, and otherwise it is the user's first default row |
| LlmConfigs.SetupRowIsVisible | backend/app/routers/users.py:56-85 | after setup adds its row, the user has a configuration and a default one, and a second setup would be refused |
| LlmConfigs.ConfigStore.SetupDefaultGroq | backend/app/routers/users.py:29-76 | an existing GROQ configuration gives a 400 "already has a GROQ configuration" and changes nothing, whatever the key; a rejected key changes nothing and gives a 400 carrying the validation message and error type, defaulting to "validation_failed"; an accepted key adds exactly one row with provider 1, the default model, temperature 0, no token limit and the default flag set, and returns it with the validation message and preview; the store keeps its row ids distinct, and the new row gets an id no row has |
| ChatStream.Dispatch | frontend/src/hooks/use-chat-stream.ts:30-45 | callbacks fire at most once each, in the order token, end, error; an unparsable or null frame reports one error if `onError` is given and fires nothing else; a token is passed on, with exactly its value, exactly when the frame defines one; end fires exactly when `end` is truthy; an error fires exactly when `onError` is given and `error` is truthy, and it carries that value |
| ChatStream.RequestClose | frontend/src/hooks/use-chat-stream.ts:19-21 | closing moves a CONNECTING or OPEN socket to CLOSING and leaves any other socket unchanged |
| ChatStream.Deliver | frontend/src/hooks/use-chat-stream.ts:62-66 | a send reaches the socket in the slot only when it is OPEN, and then extends what it received by exactly that message; no other socket changes, and a send with no OPEN socket in the slot changes nothing |
| ChatStream.LiveOnlyAt | frontend/src/hooks/use-chat-stream.ts:18-24 | if only the socket in the slot can be CONNECTING or OPEN, at most one socket is live |
| ChatStream.StreamHook.constructor | frontend/src/hooks/use-chat-stream.ts:14-15 | the hook starts with an empty slot, the open flag cleared, and no sockets |
| ChatStream.StreamHook.Connect | frontend/src/hooks/use-chat-stream.ts:18-24 | the socket in the slot is asked to close if it is live; a new CONNECTING socket for the session is added and put in the slot; no other socket changes |
| ChatStream.StreamHook.StartStream | frontend/src/hooks/use-chat-stream.ts:59-71 | after connecting, the message waits in the new socket's "open" listener and nothing is sent yet |
| ChatStream.StreamHook.OnOpen | frontend/src/hooks/use-chat-stream.ts:26-28 | opening a CONNECTING socket sets the flag, then sends its waiting message, if any, through whatever socket is in the slot if that one is OPEN; with the corrected handlers that socket is the one that opened, and it receives exactly its waiting message; any other open event changes nothing |
| ChatStream.StreamHook.OnMessage | frontend/src/hooks/use-chat-stream.ts:30-45 | a frame on an OPEN socket appends exactly its `Dispatch` calls to the log |
| ChatStream.StreamHook.OnError | frontend/src/hooks/use-chat-stream.ts:47-50 | an error event asks that socket to close; as written it always reports one transport error, if `onError` is given; when corrected, it reports only for the socket in the slot, and an error of a replaced socket leaves the callback log unchanged |
| ChatStream.StreamHook.OnClose | frontend/src/hooks/use-chat-stream.ts:52-55 | the close event marks the socket CLOSED; as written it always empties the slot and clears the flag; when corrected, it does so only if that socket is in the slot; either way the single-live-socket invariant of the corrected hook is kept |
| ChatStream.StreamHook.CloseConnection | frontend/src/hooks/use-chat-stream.ts:97-102 | the socket in the slot, if any, is asked to close; the slot is kept until its close event |
| ChatStream.StaleCloseAsWritten | frontend/src/hooks/use-chat-stream.ts:52-55 | with the close handler as written, two sends, then the replaced socket's close event, lose the second message and leave two live sockets after the next send |
| ChatStream.StaleCloseGuarded | frontend/src/hooks/use-chat-stream.ts:52-55 | with the corrected close handler, the same events send the second message and leave one live socket |
| ChatStream.ReplacedSocketScenario | frontend/src/hooks/use-chat-stream.ts:18-67 | with the handlers as written, after a second send before the first socket opens, a frame arriving on the replaced socket makes no callback, the same frame on the new socket once open makes exactly one `onToken`, and the replaced socket's error event still reports one error |
| ChatStream.ReplacedSocketGuarded | frontend/src/hooks/use-chat-stream.ts:47-50 | with the corrected handlers, the same events give the same single `onToken` on the new socket, and the replaced socket's error event reports nothing |
| ChatPage.ConcatAppend | frontend/src/app/page.tsx:105-108 | appending the fragments one at a time gives their concatenation in arrival order |
| ChatPage.FindSession | frontend/src/app/page.tsx:247 | nothing is found exactly when no session has the id; otherwise the result is the first session with it |
| ChatPage.UpdateMessages | frontend/src/app/page.tsx:122-126 | order and length are kept; every session with the id gets updated messages; every other session is unchanged |
| ChatPage.FindAfterUpdate | frontend/src/app/page.tsx:122-126 | after an update, looking up the updated id finds the updated session, and looking up any other id finds what it found before |
| ChatPage.History | frontend/src/app/page.tsx:237 | the history has one entry per message, with its role and content, in order |
| ChatPage.ChatPage.constructor | frontend/src/app/page.tsx:164-165 | the screen starts with the loaded sessions, no active session, no messages, an empty buffer and no turn loading |
| ChatPage.ChatPage.OnToken | frontend/src/app/page.tsx:105-108 | the buffer grows by the fragment and stays the concatenation of all fragments since the last reset; the text on screen grows by the fragment |
| ChatPage.ChatPage.OnEnd | frontend/src/app/page.tsx:109-133 | if the reply id, a non-empty buffer and the active session id are all present, one assistant message holding the concatenated fragments is appended to the messages and to the active session only; otherwise nothing is appended; either way the buffer, the reply id and the loading flag are reset |
| ChatPage.ChatPage.OnError | frontend/src/app/page.tsx:134-144 | the buffer, the reply id and the loading flag are reset, no message is added, and one error toast is shown |
| ChatPage.ChatPage.AbortStream | frontend/src/app/page.tsx:148-153 | the stream is stopped, and the reply id and the loading flag are cleared |
| ChatPage.ChatPage.HandleSendMessage | frontend/src/app/page.tsx:200-239 | blank input or a loading turn changes nothing; otherwise the user message is appended, the input is cleared, a turn starts with an empty buffer and the new reply id, and the stream is started with the full history; with no active session, a new session titled with the input and holding only the user message is put first and made active; otherwise only the active session's messages are replaced by the new list |
| ChatPage.ChatPage.HandleNewChat | frontend/src/app/page.tsx:241-244 | the active session and the messages are cleared; the session list is kept |
| ChatPage.ChatPage.HandleSessionSelect | frontend/src/app/page.tsx:246-252 | an unknown id changes nothing; a known id becomes active and its messages are shown |
| ChatPage.ChatPage.EditInput | frontend/src/app/page.tsx:454 | typing replaces the input |
| ChatPage.StreamedTurnScenario | frontend/src/app/page.tsx:105-239 | sending "hello" in a fresh chat, then the fragments "Hi" and " there" and the end frame, leaves one new session titled "hello" and a screen both holding the user message followed by one assistant message "Hi there", with no turn loading |
| ChatPage.ErrorAfterTokensScenario | frontend/src/app/page.tsx:105-239 | the fragments "a" and "b" followed by an error leave only the user message on screen and in the session, an empty buffer, and one error toast |
| LegacyChat.WithoutId | src/app/page.tsx:146 | the result holds exactly the messages with another id, and is no longer than the input |
| LegacyChat.WithoutIdSingle | src/app/page.tsx:146 | on one message the filter keeps it exactly when its id differs, and otherwise gives the empty list |
| LegacyChat.WithoutIdConcat | src/app/page.tsx:146 | filtering a concatenation is the concatenation of the filtered parts, so kept messages stay in their order and keep their repetitions |
| LegacyChat.WithoutAbsentId | src/app/page.tsx:144-147 | filtering out an id that no message has gives back the list unchanged |
| LegacyChat.WithoutSentMessage | src/app/page.tsx:144-147 | filtering the sent message's fresh id out of the list it was appended to gives the list before the send |
| LegacyChat.LegacyChat.constructor | src/app/page.tsx:50-58 | the chat starts empty; a non-empty stored key is put in use and shown in the key box; otherwise no key is in use |
| LegacyChat.LegacyChat.EditInput | src/app/page.tsx:377 | typing replaces the input |
| LegacyChat.LegacyChat.EditApiKeyInput | src/app/page.tsx:408 | typing replaces the key box |
| LegacyChat.LegacyChat.HandleConfigureLlm | src/app/page.tsx:93-110 | an empty key box leaves the key in use, the stored key and the dialog unchanged and shows "API Key is required"; otherwise the key is put in use and stored, and the dialog closes |
| LegacyChat.LegacyChat.HandleSendMessage | src/app/page.tsx:112-134 | blank input or a loading turn changes nothing; without a key no message is added and the dialog opens; otherwise the user message is appended, the input is cleared, and the turn is loading |
| LegacyChat.LegacyChat.Settle | src/app/page.tsx:136-155 | a reply is appended to the current messages; a failure resets the messages to the list seen when the send started, without the sent message; loading ends either way |
| LegacyChat.LegacyChat.HandleNewChat | src/app/page.tsx:158-160 | the messages are cleared |
| LegacyChat.LegacyChat.SendTurn | src/app/page.tsx:112-156 | a turn with no other handler in between leaves the previous messages, then the user message, then the reply, in that order; a failed turn with a fresh id leaves the previous messages; loading is false after either outcome |

## Left out

- ChatPage.ChatPage.OnToken: tokens are taken to be strings. The hook passes the frame's `token` value whatever JSON type it has (frontend/src/hooks/use-chat-stream.ts:33-34), and the screen's `+=` would turn `null` into "null" and `5` into "5" (frontend/src/app/page.tsx:106-107). JavaScript's string coercion is not modelled.
- A socket holds at most one waiting "open" listener. `startStream` adds one only to the socket it has just created, so more than one cannot occur.
- JSON text is not parsed. A frame arrives already decoded, either as a value or as "did not parse". Numbers are reals, without double rounding.
- Sending `{message}` is modelled as recording the message text on the socket. The JSON encoding is not modelled.
- The hook's five-minute inactivity timer and its activity listeners are left out (frontend/src/hooks/use-chat-stream.ts:74-94). Its unmount clean-up is left out too; it is the same close as `closeConnection`.
- The browser sets a socket's readyState to CLOSED just before the close event. The model marks the socket CLOSED in the close event itself.
- Callbacks that throw are not modelled. Neither are exceptions from `send` on a CONNECTING socket; such a send delivers nothing.
- The chat screen's effect that aborts a loading turn when the input changes is left out (frontend/src/app/page.tsx:156-162). Its abort is `AbortStream`.
- In the chat screen, refs kept equal to state by effects (frontend/src/app/page.tsx:89-90) are the state value itself. The lag of one render between a state update and its ref is not modelled.
- Sessions whose `messages` field is missing, and ids that are numbers, are not modelled (frontend/src/lib/types.ts:8-13). Every session holds a list and every id is a string.
- Message timestamps are left out.
- Theme, mobile sidebar, scrolling, focus and model selection are left out: they do not touch chat state.
- Toast titles and styling are left out. Toasts are recorded by kind; the chat screen's streaming-error toast also carries its description.
- `Text.Lower`: only ASCII letters are lower-cased, whereas Python's `str.lower` also folds other scripts. Keyword matching on non-ASCII messages is therefore not modelled.
- `Validation.ValidateGroqApiKey`: a `response` value that is not a string is not modelled. The reply is either a string or absent.
- The database query behind `get_user_llm_configs` has no `ORDER BY`. The model takes the table's insertion order as its result order.
- Database commits and row refresh are not modelled. A created row gets the next id.
- `LlmConfigs.ConfigStore.SetupDefaultGroq`: concurrent setups for the same user are not modelled. Handlers run one at a time, so the check-then-insert race is not modelled.
- Authentication of the current user is left out. The user id is a parameter.

## Findings

| source | as written | input that shows it | evidently intended | confidence | as-written member | corrected member |
|---|---|---|---|---|---|---|
| frontend/src/hooks/use-chat-stream.ts:52-55 | the close handler clears the socket reference and the open flag whichever socket closed | `startStream("s","first")`, then `startStream("s","second")` before the first socket's close event arrives, then that close event, then the second socket's open event | clear the reference only when the closing socket is the one it holds | medium, not executed | ChatStream.StaleCloseAsWritten | ChatStream.StaleCloseGuarded |
| frontend/src/hooks/use-chat-stream.ts:47-50 | the error handler reports to the caller whichever socket failed, including one already replaced | `startStream("s1","hi")`, then `startStream("s1","bye")` before the first socket opens, then the first socket's error event | events of a replaced socket do not reach the caller | medium, not executed | ChatStream.ReplacedSocketScenario | ChatStream.ReplacedSocketGuarded |

In the first input, the stale close event empties the reference while the
second socket is still connecting. When that socket opens, its waiting
listener finds no socket, so the second message is never sent. The next
`connect` finds no reference, so it does not close the second socket, and two
sockets stay live. With the corrected handlers (`guardReplaced`),
`StreamHook.Valid` keeps every live socket in the slot, and
`ChatStream.LiveOnlyAt` turns that into "at most one live socket".

In the second input, closing a socket that is still connecting makes the
browser fail it, which fires its error event. The caller's `onError` then
runs for the live turn. On the chat screen that resets the turn
(frontend/src/app/page.tsx:134-138), so the reply of the new socket is
dropped at `onEnd`. With `guardReplaced`, `StreamHook.OnError` proves that
an error of a socket not in the slot leaves the callback log unchanged.
