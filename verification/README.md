# NVK TV signaling hub — Dafny model

This project models the socket.io event handler of the NVK TV server
(`server.js`): the hub that elects one broadcaster ("locutor"), routes
watcher ("oyente") join requests to it, forwards WebRTC offer / answer /
ICE-candidate messages between two peers by connection id, tells the
survivors when a peer disconnects, keeps a live viewer count, and runs a
shared chat whose log holds the newest 100 entries.

The handler is a pure step function. The three globals of the server
(`viewers`, `broadcasterSocketId`, `chatHistory`) form an immutable
`Signaling.State`; each incoming `Signaling.Event` yields the next state and
an outbox of `(recipients, message)` pairs in emission order. Recipients are
`All` (`io.emit`), `AllExcept(id)` (`socket.broadcast.emit`) or `To(room)`
(`io.to(room)` and `socket.emit`). The `Transport` module adds the set of
open connections that socket.io keeps and computes what each connection
actually receives; a message to an id that is not open reaches nobody.

Files and modules:

- `wrappers.dfy` — `Wrappers`: `Option`.
- `js_text.dfy` — `JsText`: the JavaScript string operations the handler
  uses: `trim` (with the ECMAScript white-space set written out),
  `slice(0, n)`, and the decimal rendering of a millisecond clock.
- `chat_log.dfy` — `ChatLog`: chat payloads (`Str(s) | NotString` per
  field, so the `typeof` tests can be stated), entry construction, the
  bounded append, and `Window`, a reference definition of the log as "the
  newest 100 entries".
- `signaling.dfy` — `Signaling`: state, events, messages, one function per
  socket event, and `Step`.
- `transport.dfy` — `Transport`: per-connection delivery, the invariants
  kept over any sequence of events socket.io can deliver, and the history
  a new connection is sent.

The clock (`Date.now()`, read twice: once for the entry id and once for its
timestamp) and the random id suffix (`Math.random().toString(16).slice(2)`)
are parameters, bundled in `ChatLog.Stamp`. Reading the history file is a
parameter too: `ChatLog.StoredFile` is `Missing`, `Malformed` or
`Parsed(entries)`.

Connection ids (`Signaling.Id`) are opaque values compared only for
equality. The broadcaster slot test `if (broadcasterSocketId)` is modelled
as `Some?`. That is exact because socket.io ids are never empty strings, so
a stored id is always truthy.

Some behaviours of server.js worth stating:
- A falsy payload, or a payload whose `text` is not a string, is dropped
  without any reply (server.js:86).
- Defaults are filled in for a non-string name (`"Invitado"`) and a
  non-string colour (`"#e50914"`).
- No role is stored per connection. A connection is the broadcaster only
  through the single slot.
- The viewer count counts every connection, the broadcaster included.

## Model

| member | source | states |
|---|---|---|
| JsText.Trim | server.js:87 | `trim()` result is empty exactly when the input is all white space; otherwise it neither starts nor ends with white space |
| JsText.TrimIsInnerSlice | server.js:87 | the trimmed text is a contiguous slice of the input; only white space was removed before and after it |
| JsText.TrimOfPadded | server.js:87 | `trim()` removes exactly the surrounding white space: text that does not start or end with white space comes back unchanged from between any two runs of white space |
| JsText.TrimIdempotent | server.js:87 | trimming already-trimmed text changes nothing |
| JsText.Prefix | server.js:92-94 | `slice(0, n)` is a prefix of the input of length min(n, length) |
| JsText.PrefixIdempotent | server.js:92-94 | truncating an already-truncated name or text changes nothing |
| JsText.Decimal | server.js:91 | the clock part of an entry id is a non-empty string of decimal digits with no leading zero (unless the clock is 0) |
| JsText.DecimalRoundTrip | server.js:91 | the decimal clock rendering reads back as the same number |
| ChatLog.EntryIdCarriesClock | server.js:91 | an entry id's text before its first dash is all digits and reads back as the clock value used to make it |
| ChatLog.Accept | server.js:86-96 | accepted exactly when a payload is present, its text is a string, and the text is not blank. An accepted entry has: the trimmed text cut to 300 characters (non-empty); the name cut to 24 or `Invitado`; the colour unchanged or `#e50914`; the given id and timestamp |
| ChatLog.BlankTextRejected | server.js:87-88 | a text of only white space is never stored, whatever the other fields |
| ChatLog.Append | server.js:98-99 | the new entry is last. Below 100 entries nothing is dropped; otherwise exactly the oldest entry is dropped and the rest keep their order. A log of at most 100 stays at most 100 |
| ChatLog.Window | server.js:45 | reference log: at most 100 entries; the whole sequence when it is short; exactly 100 when it is longer |
| ChatLog.WindowIsNewestSuffix | server.js:98-99 | the reference log is the newest suffix of everything appended, in original order |
| ChatLog.AppendIsWindow | server.js:98-99 | appending to a log within the bound gives the reference window of the old log plus the new entry |
| ChatLog.AppendAllIsWindow | server.js:98-99 | any number of appends to a log within the bound leaves the newest 100 of the old log plus the new entries, in order |
| ChatLog.HundredAndOneAppends | server.js:98-99 | 101 appends into an empty log leave the last 100 in order: only the first is evicted |
| ChatLog.OversizedLogKeepsLength | server.js:98-99 | a log already over 100 entries (only possible from a loaded file) keeps its length on every append, so it never returns under the bound |
| ChatLog.LoadHistory | server.js:50-58 | start-up log: the parsed file, or empty when the file is missing or malformed |
| Signaling.Initial | server.js:42-45 | start-up state: no viewers, no broadcaster, the loaded log |
| Signaling.OnConnect | server.js:78-82 | a connect adds exactly 1 to the counter and sends the new count to everybody. The newcomer alone gets the log as it was, unchanged and in order |
| Signaling.OnChatSend | server.js:85-103 | a rejected submission changes nothing and emits nothing. An accepted one appends its entry and emits exactly one `chat:msg` with that entry to everybody. The counter and the slot are untouched |
| Signaling.OnAnnounce | server.js:108-112 | the sender takes the slot whoever held it; the earlier holder gets no notice. `broadcaster` goes to everyone but the sender. Nothing else changes |
| Signaling.OnWatch | server.js:115-123 | with an empty slot: no message and no state change. With holder `b`: exactly one `watcher(sender)` to `b` |
| Signaling.OnRelay | server.js:126-139 | exactly one message of the same kind to the target, `from` = the sender's own id, body unchanged. No state change |
| Signaling.OnDisconnect | server.js:142-159 | new count = max(0, count - 1), sent to everybody last. If the holder leaves, the slot empties and `broadcaster-left` goes to all others. Otherwise the slot is unchanged, and `disconnectPeer(id)` goes to the holder only if there is one |
| Signaling.Step | server.js:71-160 | the count changes only on connect or disconnect, the slot only on announce or disconnect, the log only on chat. A count message is emitted exactly on connect or disconnect, at most once per event, to everybody, carrying the new count |
| Signaling.LastAnnouncementWins | server.js:108-109 | of two announcements, the later sender holds the slot |
| Signaling.SlotReusableAfterLeave | server.js:146-148 | after the holder disconnects the slot is empty, and any other connection's announcement takes it at once |
| Transport.Inbox | server.js:126-139 | a connection that is not open receives nothing (an emission to a vanished id is a silent no-op); nobody receives more messages than were emitted |
| Transport.StepPreservesGood | server.js:78-158 | every deliverable event keeps: count = number of open connections, and the slot holds an open connection or nothing. So the zero floor never engages |
| Transport.RunPreservesGood | server.js:78-158 | the same two invariants hold after any deliverable sequence of events |
| Transport.InvariantsFromBoot | server.js:42-159 | from start-up through any deliverable events, the count equals the open connections and the slot never names a closed connection |
| Transport.ConnectDelivery | server.js:78-82 | on connect, each open connection, the newcomer included, receives the new count = number of open connections. The newcomer then receives the current log |
| Transport.DisconnectDelivery | server.js:142-159 | the leaver receives nothing. If it held the slot: each other connection gets `broadcaster-left`, then the count. Otherwise: the holder (if any) gets `disconnectPeer(leaver)`, then the count; everyone else gets only the count. The count drops by one |
| Transport.AnnounceDelivery | server.js:108-111 | `broadcaster` reaches every open connection except the announcer, exactly once |
| Transport.WatchDelivery | server.js:115-123 | only the holder receives anything: exactly one `watcher` carrying the requester's id. With no holder, nobody receives anything |
| Transport.RelayDelivery | server.js:126-139 | only the target receives anything, once and only if it is open, tagged with the true sender. A closed target drops the message silently |
| Transport.ChatDelivery | server.js:85-103 | an accepted entry reaches every open connection exactly once; a rejected submission reaches nobody |
| Transport.RunHistoryIsAppendAll | server.js:85-103 | after any events, the log is the start log with exactly the accepted submissions appended, in submission order; no other event touches it |
| Transport.RunHistoryIsWindow | server.js:98-99 | after any events from a log within the bound, the log is the newest 100 of the start log followed by all accepted submissions, in submission order |
| Transport.Boot | server.js:42-58 | start-up world: no open connections, count 0, empty slot, the loaded log |
| Transport.SnapshotOnConnect | server.js:82 | after any deliverable events from start-up, a new connection receives the newest entries submitted before it: all of them up to 100, and none submitted later |

## Left out

- HTTP serving, routes, the port and `server.listen` (server.js:11, 17-37, 165-171). This is I/O plumbing outside the handler.
- Writing the history file (`saveChat`, server.js:60-66) and JSON encoding. A write failure is only logged there, so it cannot change state or messages.
- Details of reading the history file (server.js:50-58). `ChatLog.StoredFile` stands for the three outcomes. A file holding `null` makes the `chatHistory.length` read at server.js:53 throw, so the catch resets the log to empty; it is `Malformed` in the model. Any other parsed value that is not an array is not modelled.
- Console logging throughout the handler.
- `Date.now()` and `Math.random()`. They are inputs in `ChatLog.Stamp`. How a random number is rendered in hexadecimal is not modelled; the suffix is taken as given.
- JsText.Decimal: clock values of 10^21 or more, which JavaScript prints with an exponent, are not modelled.
- Text encoding: one `char` stands for one Unicode code point, where JavaScript counts UTF-16 code units. Text outside the Basic Multilingual Plane is not modelled: `slice` counts such a character as two units and can split its surrogate pair.
- Number width: `viewers` is a `nat`. JavaScript numbers are exact only up to 2^53.
- Payload fields other than `name`, `color` and `text`, and property getters, are not modelled. A truthy payload that is not an object behaves like one with no string fields, which is how it is modelled.
- Relay targets: the model types the `target` of `offer`, `answer` and `candidate` as a single connection id, and a target that is not open reaches nobody. socket.io's `to` also accepts an array of rooms (server.js:128, 133, 138). A client-sent array reaches every open connection it lists, and an empty array reaches every connection. Array targets are not modelled.
- socket.io transport: delivery order across connections, acknowledgements and reconnection. Events form one sequence, as on Node's single event loop.
- ChatLog.AppendIsWindow: stated only for a log within the 100-entry bound. A longer log (only possible from a loaded file) never shrinks; see `ChatLog.OversizedLogKeepsLength`.
- ChatLog.AppendAllIsWindow: same restriction, for the same reason.
- Transport.RunHistoryIsWindow: same restriction, for the same reason.
- Transport.SnapshotOnConnect: stated only when the loaded file holds at most 100 entries, for the same reason.
- The client scripts `player.js`, `locutor.js` and `oyente.js`: DOM, media playback, WebRTC peer connections and floating-point volume meters.
