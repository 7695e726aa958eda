# Chat client session state machine

A Dafny model of the browser client of a small WebSocket chat
(`public/script.js`). It covers the session state and the handlers that change it.

The state is four script globals:
- `currentNick`
- `isMuted`
- `isBanned`
- the socket `ws` with its `readyState`

The handlers are the socket's `onopen`, `onmessage`, `onclose` and `onerror`, the reconnect timer, and the nickname and chat form submits. The input-gating predicate and the placeholder chain are the two pure parts. The socket, the timer and the page are not called. Instead, what the handlers do to them goes into append-only logs in the state:
- frames sent
- reconnect delays scheduled
- timers fired
- close requests
- sockets created
- view effects: prompt shown or hidden, message displayed with its system/highlight flags, transcript cleared, roster rebuilt, input state refreshed, chat input cleared

Layout:
- `strings.dfy` (`Strings`): `trim` with ECMAScript's whitespace set, ASCII `toLowerCase`, and the `/help` test.
- `protocol.dfy` (`Protocol`): frames, decoded inbound messages, connection status, and view effects.
- `client_spec.dfy` (`ClientSpec`): the state as a value, one function per handler giving the state that handler leaves, and `Step`/`Run` over sequences of events.
- `client_properties.dfy` (`ClientProperties`): what each handler promises, and the invariants over every admissible event sequence.
- `session.dfy` (`Session.ChatSession`): the globals as fields of one object. Each handler updates them in place and is proved to leave the state its `ClientSpec` function describes.

The connection status has five values: `NoSocket | Connecting | Open | Closing | Closed`. `ws.close()` moves a connecting or open socket to CLOSING, and the script reads `readyState` right after it.

`currentNick` is truthy when it is set and not empty. `HasNick` models that test.

Some behaviours a reader might expect are absent from the code, and the model follows the code:
- The roster keeps duplicate names.
- Every qualifying close schedules one more reconnect, even with one already pending (`EveryCloseSchedules`).
- `isMuted` is never set to true: no handler sets it, and kick and ban clear it (`Step`, `ReachableWellFormed`).
- An `error` message keeps the nick (`PassiveMessages`).
- `isBanned` is never reset, since no message or timer lifts a kick or ban (`Step`, `RunExtends`).
- A ban stops new reconnects from being scheduled (`BannedSchedulesNoReconnect`). A reconnect scheduled before the ban still fires and opens a socket for the banned client (`PendingTimerOutlivesBan`).

## Model

| member | source | states |
|---|---|---|
| `Strings.Trim` | public/script.js:309 | the trimmed text is a slice of the input with only whitespace before and after it, and it neither starts nor ends with whitespace |
| `Strings.TrimIdempotent` | public/script.js:327 | trimming an already trimmed text changes nothing |
| `Strings.TrimEmptyIff` | public/script.js:329 | the trimmed text is empty exactly when the input is all whitespace |
| `Strings.ToLowerAscii` | public/script.js:333 | keeps the length, maps each upper-case ASCII letter to its lower-case letter and keeps every other character |
| `Strings.HelpCommandSpelling` | public/script.js:333 | the text counts as `/help` exactly when it is `/help` with each letter in either case |
| `ClientSpec.Placeholder` | public/script.js:159-168 | placeholder priority: banned, then muted, then no nick, then socket not open, each text exactly in its own case |
| `ClientSpec.InputDisabled` | public/script.js:155-168 | the disabled flag agrees with the separate placeholder chain: wherever the chain is defined, the input is disabled exactly when the placeholder is not the default text |
| `ClientSpec.SubmitNickAsWritten` | public/script.js:307-322 | a blank nick changes nothing; otherwise the trimmed nick becomes current and the prompt is hidden |
| `ClientSpec.Step` | public/script.js:174-349 | dispatching any event to its handler never clears `isBanned` and never sets `isMuted` to true |
| `ClientSpec.RosterOf` | public/script.js:222-243 | the roster has one entry per listed name, in the server's order, with no de-duplication |
| `ClientProperties.EnabledInputSends` | public/script.js:155-157 | when the input is enabled (socket open, nick set, neither muted nor banned), a non-blank non-`/help` submit sends `Chat(currentNick, trimmed)` |
| `ClientProperties.OpenReRegisters` | public/script.js:180-192 | on open, with a nick and no ban, exactly one `Nick(currentNick)` frame is sent and no prompt appears; with no nick and no ban, the nick prompt is shown and nothing is sent; when banned, nothing is sent and no prompt appears; the status becomes Open |
| `ClientProperties.IgnoredMessagesChangeNothing` | public/script.js:194-203 | a non-JSON payload, or a type that matches no case, leaves the whole state unchanged, logs included |
| `ClientProperties.PassiveMessages` | public/script.js:204-254 | `error`, `nick`, `chat`, `users`, `highlight` and `clear` keep the nick, both flags and the socket, and send nothing; `error` shows the nick prompt and keeps the nick; an inbound chat is a system message exactly when its sender is `SYSTEM`; the roster keeps every listed name; a highlight is a system and highlighted message |
| `ClientProperties.ModerationSuspends` | public/script.js:256-276 | `kick` and `ban` set banned, clear muted, keep the nick, request one close, send nothing and disable the input; the close that follows schedules no reconnect |
| `ClientProperties.ClosePolicy` | public/script.js:280-292 | a close schedules one 3000 ms reconnect exactly when a nick is set and the client is not banned; the status becomes Closed |
| `ClientProperties.EveryCloseSchedules` | public/script.js:286-290 | two qualifying closes schedule two reconnects; there is no pending-timer guard |
| `ClientProperties.NickSubmitCases` | public/script.js:307-322 | a blank nick changes nothing; otherwise the trimmed nick becomes current; on an open socket it is sent as one frame, otherwise a new socket is started |
| `ClientProperties.ChatSubmitCases` | public/script.js:325-341 | a frame is sent exactly when the trimmed text is non-blank and not `/help`, a nick is set and the socket is open; that frame is `Chat(currentNick, trimmed)`; `/help` only shows a local system message; no gating field changes |
| `ClientProperties.ChatSubmitIgnoresModeration` | public/script.js:331 | the chat handler sends the same frames whatever `isMuted` and `isBanned` are; gating is left to the disabled input |
| `ClientProperties.StepGated` | public/script.js:155-157 | every handler keeps a banned client's input shown disabled: kick and ban disable it, later refreshes see `isBanned`, and the nick and chat handlers do not touch it |
| `ClientProperties.RunGated` | public/script.js:256-276 | over any admissible event sequence, a banned client's last input state is disabled |
| `ClientProperties.ReachableGated` | public/script.js:155-157 | from page load on, whenever `isBanned` is true the chat input is shown disabled, so the gate the chat handler relies on is in place |
| `ClientProperties.StepExtends` | public/script.js:258 | no handler removes anything from a log, and none clears `isBanned` |
| `ClientProperties.RunExtends` | public/script.js:6 | over any event sequence the logs only grow and `isBanned`, once true, stays true |
| `ClientProperties.BanOnlyByModeration` | public/script.js:256-276 | `isBanned` goes from false to true only on a `kick` or `ban` message |
| `ClientProperties.BannedSchedulesNoReconnect` | public/script.js:286-289 | after a ban, no event sequence schedules another reconnect |
| `ClientProperties.PendingTimerOutlivesBan` | public/script.js:256-289 | a reconnect scheduled before a kick is not cancelled: after a drop with a nick, a nick submit that opens a new socket, and a kick on it, the pending timer fires and the banned client starts another socket |
| `ClientProperties.StepWellFormed` | public/script.js:309-337 | every handler keeps the nick trimmed and non-blank, keeps `isMuted` false, and sends only trimmed, non-blank, non-`/help` frames |
| `ClientProperties.RunWellFormed` | public/script.js:3-6 | the invariant of `StepWellFormed` holds after any admissible event sequence |
| `ClientProperties.ReachableWellFormed` | public/script.js:5 | from page load on, `isMuted` is always false and no `/help` chat frame is ever sent |
| `ClientProperties.ReconnectResendsNickFirst` | public/script.js:184-190 | after a drop with a nick set, one reconnect is scheduled; when it fires and the socket opens, the nick frame is sent before the next chat frame |
| `ClientProperties.NickSubmitAsWrittenLeavesInputStale` | public/script.js:307-322 | as written, setting the first nick on an open socket allows sending but leaves the input shown as disabled |
| `ClientProperties.FirstNickLeavesInputStale` | public/script.js:346-349 | page load, open, then the first nick reaches that stale state |
| `ClientProperties.InputFreshPreserved` | public/script.js:154-157 | with the refresh added to the nick handler, every event keeps the input's enabled state equal to the send-enabled predicate, except a reconnect that replaces an open socket |
| `Session.ChatSession.constructor` | public/script.js:3-6 | the globals start with no socket, no nick, not muted and not banned |
| `Session.ChatSession.UpdateInputState` | public/script.js:154-170 | logs the input's disabled flag and placeholder, computed from the current state |
| `Session.ChatSession.ConnectWebSocket` | public/script.js:174-178 | a new socket replaces `ws` and is connecting |
| `Session.ChatSession.CloseSocket` | public/script.js:263 | counts a close request; a connecting or open socket starts closing |
| `Session.ChatSession.OnOpen` | public/script.js:180-192 | leaves the state `ClientSpec.OnOpen` gives |
| `Session.ChatSession.RosterFor` | public/script.js:224-243 | the loop builds exactly `ClientSpec.RosterOf` for the listed names |
| `Session.ChatSession.Suspend` | public/script.js:256-265 | the kick/ban body: banned, not muted, notice without the nick form, close, refresh |
| `Session.ChatSession.OnMessage` | public/script.js:194-278 | leaves the state `ClientSpec.OnMessage` gives for the decoded message |
| `Session.ChatSession.OnClose` | public/script.js:280-292 | leaves the state `ClientSpec.OnClose` gives |
| `Session.ChatSession.OnError` | public/script.js:294-300 | closes the socket and refreshes the input |
| `Session.ChatSession.OnTimer` | public/script.js:289 | a scheduled timer fires and starts a new socket |
| `Session.ChatSession.SubmitNick` | public/script.js:307-322 | leaves the state `ClientSpec.SubmitNickAsWritten` gives: the nick is stored and sent or a socket started, and the input state is not refreshed |
| `Session.ChatSession.SubmitChat` | public/script.js:325-341 | leaves the state `ClientSpec.SubmitChat` gives |
| `Session.ChatSession.Handle` | public/script.js:174-349 | one event, handled in place, leaves the state `ClientSpec.Step` gives, so every property proved of `Step` and `Run` holds of the object |

## Left out

- Presentation: the markup and classes built by `displayMessage`, `showModal` and `hideModal`, the roster's `<li>` styling and titles, the user count, scrolling, and the `statusSpan` text. Only the abstract view effects are recorded.
- JSON parsing: `onmessage` takes an already decoded message, or `Malformed`. A message with missing or ill-typed fields is not modelled. For example, a `users` field that is not an array makes `forEach` throw.
- The WebSocket transport: opening, sending and closing are status changes and log entries. Handlers of a socket that `connectWebSocket` has already replaced still act on the new `ws` in the script. The model delivers every socket event to the current socket.
- `setTimeout` timing: a reconnect is a logged 3000 ms delay, and its firing is an event allowed only while a timer is pending. There is no clock.
- `new Date().toLocaleTimeString()`: the `now` parameter of the handlers that stamp a local message.
- `console.error` logging, `e.preventDefault()`, and listener registration. Page load is the `PageLoad` event, which starts the first connection.
- Strings: JavaScript strings are UTF-16 code units and Dafny's are scalar values. `trim` uses the Unicode 15 space separators. `toLowerCase` is ASCII-only, which gives the same result for the `/help` and `nimda` comparisons.
- Page state as a precondition of the form submits: `NickSubmit` and `ChatSubmit` are admissible whatever the page shows, even with the nick form hidden or the chat input disabled. The theorems over event sequences therefore cover more traces than a visitor can produce. `PendingTimerOutlivesBan`'s trace needs the nick form to be showing, for example after an `error` message. Likewise `PageLoad` is admissible at any point, so a sequence may load the page again in the middle of a session; the script runs `window.onload` once.
- `ClientProperties.InputFreshPreserved`: does not cover a reconnect timer, or page load, that fires while a socket is open. `connectWebSocket` then replaces the open socket without refreshing the input.

## Findings

| source | as written | input that shows it | evidently intended | confidence | as-written member | corrected member |
|---|---|---|---|---|---|---|
| public/script.js:307-322 | the nick form stores the nick and sends it, but never calls `updateInputState` | page load, then the socket opens with no nick: the input is disabled with "Please set your nickname to chat." Then submit `alice`. Sending is now allowed, but the input stays disabled until a later open, close, error, kick or ban | the input is enabled once a nick is set on an open socket | medium; not executed | `ClientProperties.NickSubmitAsWrittenLeavesInputStale` | `ClientProperties.InputFreshPreserved` |

`ClientSpec.SubmitNickAsWritten` models the handler as written, and `Step` and `Session.ChatSession.SubmitNick` use it. `ClientSpec.SubmitNickFixed` adds the refresh. Only `StepFixed`, the step function of `InputFreshPreserved`, uses it.
