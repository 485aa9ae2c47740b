# SockJS server core (igm/sockjs-go), modelled in Dafny

This project models the server side of SockJS as the Go library
igm/sockjs-go implements it, and proves properties of that model. Two
generations of the library live side by side in the repository and do not
agree with each other, so each is modelled on its own:

- **v3/sockjs** (modules `V3*`): the session state machine, the websocket
  and HTTP receivers, the xhr transports, the handler's session registry,
  its path parsing, its mapping table and its request routing.
- **sockjs/** (modules `Sockjs*`), in turn two layers:
  - the session/receiver layer: the older session, three byte-limited HTTP
    receivers and the oldest xhr receiver, the handler, the xhr transports
    and the connection registry;
  - the channel-driven transports: jsonp, jsonp_send, htmlfile, websocket,
    and the `sendFrame`/`queueMessage` helpers.

Shared modules:

- `Text`: 32-bit counters, joins and decimal rendering.
- `Json`: JSON string quoting per section 7 of RFC 8259 with encoding/json's
  HTML-safe choices, as Go releases before 1.22 write it (backspace and form
  feed as `\u0008` and `\u000c`; Go 1.22 writes `\b` and `\f`), its inverse, the data frame `a[...]` and the close
  frame `c[code,"reason"]`, and the rewrite of unsafe code points used by
  the script transports.
- `Dispatch`: the routing loop both handlers share.
- `XhrSendLadder`: the xhr_send decision order, identical in both
  generations.
- `XhrFrames`: the xhr constants.

Objects that the Go code mutates in place are Dafny classes: the sessions,
receivers, handlers and the connection registry. A pure step function on a
snapshot of each receiver states what one call does, and the methods'
postconditions are written with it. Goroutines, timers and channels become
events that the environment calls, such as `ReceiverDone`, `Heartbeat` or
`ConnectionClosed`, or become sequences of offers and arrivals fed to a
function. Byte-producing helpers are pure functions. Each is paired with a
reader that proves the bytes read back as what was meant.

Files: `text.dfy`, `json.dfy`, `dispatch.dfy`, `xhr_send.dfy`,
`xhr_frames.dfy`, `v3_receiver.dfy`, `v3_session.dfy`, `v3_handler.dfy`,
`v3_xhr.dfy`, `v3_websocket.dfy`, `sockjs_httpreceiver.dfy`,
`sockjs_xhrreceiver.dfy`, `sockjs_eventsourcereceiver.dfy`,
`sockjs_xhr_receiver.dfy`, `sockjs_session.dfy`, `sockjs_handler.dfy`,
`sockjs_transport_xhr.dfy`, `sockjs_sessions.dfy`, `sockjs_jsonp.dfy`,
`sockjs_jsonp_send.dfy`, `sockjs_htmlfile.dfy`, `sockjs_websocket.dfy`,
`sockjs_utils.dfy`.

Some helpers are called by the core but their source is not part of this
model: `closeFrame`, `quote`, `transform`, `re`, `createDataFrame`,
`mapping.matches`, `httpError`, the v3 `messageBuffer` and
`newHTTPReceiver`. They are modelled as follows:

- `quote` is JSON string quoting, as sockjs/utils_test.go expects.
- `closeFrame(status, reason)` is `c[<status>,<quote(reason)>]`, as
  sockjs/session_test.go expects.
- `re` matches the control characters and the invisible or line-separating
  code points (U+200C–U+200F, U+2028–U+202F, U+2060–U+206F, U+FFF0–U+FFFF).
  Each match is written as `\uXXXX`.
- `createDataFrame`, `url.ParseQuery`, `json.Unmarshal` and the route
  verdicts of `mapping.matches` are parameters.
- The v3 HTTP receiver follows sockjs/httpreceiver.go, but passes write
  errors on, as the v3 receiver interface requires.

## Model

| member | source | states |
|---|---|---|
| Text.AddU32 | sockjs/httpreceiver.go:75 | adding to a uint32 counter is exact below 2^32; at or above it the counter wraps around to less than the true sum |
| Text.AddU32Counts | sockjs/xhrreceiver.go:67 | a counter kept by repeated uint32 additions is always the true byte total modulo 2^32 |
| Text.NatStringRoundTrip | sockjs/session_test.go:252 | the decimal rendering of a close status reads back as the same number |
| Text.NatStringInjective | sockjs/session_test.go:252 | two distinct statuses never render alike |
| Json.Quote | sockjs/utils_test.go:9-23 | a quoted message is a JSON string literal: it starts and ends with a double quote |
| Json.QuoteAllAt | v3/sockjs/websocket.go:65 | `transform(messages, quote)`: item i of the result is message i, quoted |
| Json.EscapeRoundTrip | sockjs/jsonp.go:229-230 | undoing JSON escapes on an escaped text gives the text back, whatever characters it holds |
| Json.QuoteRoundTrip | sockjs/utils_test.go:9-23 | a client unquoting a quoted message gets the message back |
| Json.QuoteInjective | sockjs/utils_test.go:9-23 | two messages that quote alike are equal |
| Json.QuotePlain | sockjs/utils_test.go:13-14 | a message of printable ASCII other than `"` `\` `<` `>` `&` is quoted as-is between double quotes (the `"simple"` case) |
| Json.EscapePlain | sockjs/utils_test.go:13-14 | escaping leaves such text unchanged |
| Json.CloseFramePlain | sockjs/session_test.go:252 | for such a reason the close frame is `c[<status>,"<reason>"]` |
| Json.EscapeNoLineBreak | sockjs/xhrreceiver.go:66 | escaped text holds no CR or LF, so a quoted message never breaks a newline-delimited frame |
| Json.DataFrameNoLineBreak | sockjs/xhrreceiver.go:66 | a data frame is always one line, whatever the messages hold |
| Json.ParseQuotedItems | sockjs/httpreceiver.go:59-64 | the comma-joined quoted messages parse back to exactly the messages |
| Json.DataFrameRoundTrip | sockjs/httpreceiver.go:57-66 | a client parsing `a[...]` gets back exactly the messages sent, in order |
| Json.EscapeUnsafe | sockjs/jsonp.go:225-227 | the `re` rewrite leaves no unsafe code point and changes nothing in text that has none |
| Json.EscapeKeepsSafe | sockjs/htmlfile.go:152-155 | JSON-escaping text that has no unsafe code point adds none |
| Json.MarshalInnerIsEscape | sockjs/jsonp.go:229-230 | `json.Marshal` with its quotes cut off is exactly the JSON escape of the text |
| Json.ScriptItemsAt | sockjs/htmlfile.go:152-157 | item i is frame i rewritten by `re` and then JSON-escaped |
| Json.EscapeJoin | sockjs/jsonp.go:220-231 | escaping item by item and joining with commas is escaping the joined text |
| Json.ScriptBodyDecodes | sockjs/jsonp.go:217-234 | the text between the quotes of a script data frame unescapes to `a[` + the rewritten frames joined by commas + `]`; it has no line break and no unsafe code point |
| Json.EscapeNoTagOpen | sockjs/htmlfile.go:164 | escaped text has no `<`, so a frame cannot close the script element it is written into |
| Dispatch.Serve | sockjs/handler.go:51-71 | the first full match runs, and no earlier mapping fully matched; 405 lists the path-matched methods joined by `", "`; 404 only when nothing matched |
| Dispatch.PathMethodsFromTable | sockjs/handler.go:54-62 | when each path-only verdict names its own mapping's method, every method in a 405's allow list is the method of a mapping in the table |
| Dispatch.NoPathMethods | v3/sockjs/handler.go:61-65 | an empty allow list means no mapping matched the path with another method |
| XhrSendLadder.Decide | v3/sockjs/xhr.go:16-46 | the order is: missing payload, broken JSON, unparsable URL, unknown session. Each rung holds iff all earlier checks passed and its own failed. Delivery happens iff all checks pass, and carries the decoded messages |
| XhrFrames.StreamingPreludeShape | v3/sockjs/xhr.go:13 | the streaming prelude is 2048 `h` characters and a newline |
| XhrFrames.CFrameIsCloseFrame | v3/sockjs/xhr.go:12 | cFrame is the close frame 2010 "Another connection still open" |
| V3Receiver.XhrFrame | v3/sockjs/xhr.go:50-52 | xhrFrameWriter writes the frame followed by exactly one newline |
| V3Receiver.FrameStep | v3/sockjs/websocket.go:69-76 | websocket: a frame reaches the wire unless the connection is broken, and a failed write closes the receiver. HTTP: nothing once done. Otherwise the frame and a newline are written, the size grows by their length, and the receiver closes at the limit. A write error is returned and changes nothing |
| V3Receiver.BulkStep | v3/sockjs/websocket.go:63-67 | no messages: nothing happens; otherwise exactly one frame, the data frame of all the messages |
| V3Receiver.Receiver.constructor | v3/sockjs/websocket.go:55-61 | a receiver starts open, unbroken, not interrupted, with nothing counted |
| V3Receiver.Receiver.SendFrame | v3/sockjs/websocket.go:69-76 | the receiver's new state and the error result are FrameStep's |
| V3Receiver.Receiver.SendBulk | v3/sockjs/websocket.go:63-67 | the receiver's new state and the error result are BulkStep's |
| V3Receiver.Receiver.Close | v3/sockjs/websocket.go:78-84 | close is idempotent: closed afterwards, nothing else changes |
| V3Receiver.Receiver.ConnectionLost | v3/sockjs/websocket.go:73-75 | the connection starts refusing writes; nothing else changes |
| V3Receiver.Receiver.ClientGone | v3/sockjs/websocket.go:94 | an HTTP receiver that is not done becomes interrupted; a websocket receiver never is |
| V3Receiver.Frames | v3/sockjs/session.go:60-64 | frames applied in turn never reopen a closed receiver or change its broken and interrupted flags |
| V3Receiver.WebsocketDelivers | v3/sockjs/websocket.go:69-76 | on a working websocket the client sees exactly the frames sent, in order |
| V3Receiver.PollingTakesOneFrame | v3/sockjs/xhr.go:61 | a polling receiver (limit 1) is done after its first frame and writes nothing more |
| V3Receiver.DoneIgnoresFrames | sockjs/httpreceiver.go:72 | once an HTTP receiver is done, later frames leave it untouched |
| V3Receiver.BulkReadsBack | v3/sockjs/websocket.go:63-67 | the single frame a bulk writes parses back to the messages |
| V3Session.Session.constructor | v3/sockjs/session.go:72-86 | a new session is Opening, with no receiver, nothing buffered, no close frame and the disconnect timer armed |
| V3Session.Session.SendMessage | v3/sockjs/session.go:88-102 | Closing or Closed: ErrSessionNotOpen and the buffer untouched. Otherwise the message is appended; if the receiver can send, the whole buffer goes out as one bulk. The buffer is cleared on success and kept on a write error. State, receiver and timer never change |
| V3Session.Session.AttachReceiver | v3/sockjs/session.go:104-147 | with a receiver already attached: errSessionReceiverAttached and nothing else changes. In Closing: the close frame (unless raw), then close. Otherwise: `o` when Opening (unless raw), Active, the whole buffer as one bulk, the buffer cleared, and the heartbeat armed iff its interval is positive. A write error is returned at the step that failed. State never goes back |
| V3Session.Session.DetachReceiver | v3/sockjs/session.go:149-155 | the receiver is dropped and the disconnect timer replaces the slot |
| V3Session.Session.Heartbeat | v3/sockjs/session.go:157-164 | `h` is sent and the heartbeat re-armed only while a receiver is attached |
| V3Session.Session.Accept | v3/sockjs/session.go:166-168 | the client's messages are appended in order, unless the receive buffer is closed (error) |
| V3Session.Session.Closing | v3/sockjs/session.go:170-182 | idempotent. The first call enters Closing, closes the receive buffer, and sends the stored close frame to an attached receiver before closing it |
| V3Session.Session.Terminate | v3/sockjs/session.go:184-194 | idempotent: ends Closed with closeCh closed; the timer is stopped on the first entry to Closed only |
| V3Session.Session.Close | v3/sockjs/session.go:196-206 | succeeds only before Closing, storing `closeFrame(status, reason)` and closing as above; later calls return ErrSessionNotOpen and keep the stored frame |
| V3Session.Session.ReceiverDone | v3/sockjs/session.go:112-114 | the receiver's done signal detaches it and re-arms the disconnect timer |
| V3Session.Session.ReceiverInterrupted | v3/sockjs/session.go:115-117 | an interruption detaches the receiver and closes the session |
| V3Handler.ParseShape | v3/sockjs/handler.go:75-81 | every path `/<server>/<session>` followed by anything that does not continue the session segment parses to that session |
| V3Handler.ParseSound | v3/sockjs/handler.go:21 | every path that parses has exactly that shape, with the parsed ID as its second segment |
| V3Handler.ExampleParse | v3/sockjs/handler_test.go:90-96 | `/server/session/whatever` parses to `session` |
| V3Handler.Defaults | v3/sockjs/handler.go:111-117 | the default table has the four welcome, info and iframe mappings |
| V3Handler.MappingsOf | v3/sockjs/handler.go:120-140 | no transport group holds the xhr_send mapping |
| V3Handler.Kept | v3/sockjs/handler.go:149-161 | only transports that can be indexed are kept; websocket entries are dropped |
| V3Handler.KeptMembers | v3/sockjs/handler.go:149-161 | a transport is indexed iff it is in the list and is not a websocket type |
| V3Handler.Groups | v3/sockjs/handler.go:183-185 | the appended groups never hold the xhr_send mapping |
| V3Handler.GroupsSnoc | v3/sockjs/handler.go:183-185 | appending one more group extends the table by exactly that group |
| V3Handler.CountConcat | v3/sockjs/handler.go:176-184 | counting mappings distributes over concatenation |
| V3Handler.CountAbsent | v3/sockjs/handler.go:176-184 | a table without an endpoint counts it zero times |
| V3Handler.XhrSendOnce | v3/sockjs/handler.go:175-180 | the xhr_send POST mapping appears exactly once when XHR or XHR streaming is allowed, and otherwise not at all |
| V3Handler.GroupsHold | v3/sockjs/handler.go:183-185 | a transport's mappings are in the table iff the transport is allowed |
| V3Handler.MappingsDisjoint | v3/sockjs/handler.go:120-140 | no mapping belongs to two transport groups |
| V3Handler.Handler.constructor | v3/sockjs/handler.go:27-47 | the table is the filled mapping table, then the websocket mapping if enabled, then the raw websocket mapping if enabled; the fill order is empty when `ReceiverTypeNone` is allowed, and otherwise lists exactly once each allowed transport (every transport when none is named); the registry starts empty |
| V3Handler.Handler.FillMappingsWithAllowedMethods | v3/sockjs/handler.go:106-187 | ReceiverTypeNone anywhere in the list: only the four defaults. Otherwise the groups are appended in some order that holds each allowed transport exactly once; an empty list allows all five |
| V3Handler.Handler.SessionByRequest | v3/sockjs/handler.go:83-103 | an unparsable path is an error and leaves the registry unchanged; a known ID returns its session; an unknown one registers a fresh Opening session under it |
| V3Handler.Handler.SessionEnded | v3/sockjs/handler.go:94-99 | once closeCh is closed, exactly that ID leaves the registry |
| V3Handler.Handler.ServeHTTP | v3/sockjs/handler.go:51-73 | for verdicts that give one verdict per mapping, each path-only verdict carrying its mapping's method: outside the prefix, 404. Inside it, the chain that runs is that of a mapping of the table, the first full match; a 405 lists the path-matched methods joined by `", "`, each a method of the table; 404 only when nothing matched |
| V3Xhr.XhrSend | v3/sockjs/xhr.go:16-46 | the reply is the ladder's; on delivery the session's receive buffer gets the messages appended in order; the registry is unchanged |
| V3Xhr.AttachOrReject | v3/sockjs/xhr.go:62-66 | a receiver already attached: the session is untouched, and the new receiver gets cFrame plus a newline (nothing if its connection refuses writes) and is closed. Otherwise the session keeps the new receiver. On a working connection the attach succeeds, and a session still opening with nothing buffered sends `o` and becomes Active. On a connection that refuses writes, the attach fails exactly when it has a frame to write; the receiver is then closed with nothing written, and the session keeps its state and buffer |
| V3Xhr.Poll | v3/sockjs/xhr.go:54-66 | URL error: no receiver and the registry is unchanged. Otherwise the named session is found or registered, and AttachOrReject runs on a receiver with the given limit, working or refusing writes. A fresh session on a refusing connection rejects the receiver, keeps it and stays Opening |
| V3Xhr.XhrPoll | v3/sockjs/xhr.go:54-72 | polling uses limit 1. A fresh session's poller receives `o\n` and is done; a losing poller receives cFrame. On a connection that refuses writes, a fresh session's poller is rejected with nothing written, and the session keeps it and stays Opening |
| V3Xhr.XhrStreaming | v3/sockjs/xhr.go:74-96 | streaming writes the prelude first and then uses ResponseLimit. A fresh session's streamer receives the prelude then `o\n`; a losing streamer the prelude then cFrame. After a failed prelude flush, a fresh session's streamer is rejected with nothing more written, and the session keeps it and stays Opening |
| V3Xhr.RejectedStreamingBody | v3/sockjs/xhr_test.go:211 | a rejected streamer's body is the prelude followed by cFrame on its own line |
| V3Websocket.WebsocketSessionID | v3/sockjs/websocket.go:21 | the parsed session ID, or "" when the path does not parse |
| V3Websocket.Open | v3/sockjs/websocket.go:12-27 | a fresh session per connection, not registered. The websocket receiver is attached, `o` has been sent, the session is Active, and the heartbeat is armed iff its delay is positive |
| V3Websocket.Finish | v3/sockjs/websocket.go:41-46 | when reading stops or the receiver is done, the session is closed. A session not yet closing first sends its stored close frame, which is the empty frame when the application never called Close |
| V3Websocket.Conversation | v3/sockjs/websocket_test.go:119-146 | two sends, one receive and Close(status, reason): the client reads `o`, the two data frames and the close frame, in order; the session receives the client's message |
| V3Websocket.FirstMessageFrame | v3/sockjs/websocket_test.go:138 | `a["message 1"]` |
| V3Websocket.SecondMessageFrame | v3/sockjs/websocket_test.go:138 | `a["message 2"]` |
| V3Websocket.CloseReasonFrame | v3/sockjs/websocket_test.go:138 | `c[123,"close"]` |
| SockjsHttpReceiver.Step | sockjs/httpreceiver.go:68-83 | Closed: nothing happens. Active: the frame writer's bytes are appended, the counter grows by their length with uint32 wrap-around, and the receiver closes (closing doneCh) iff the counter reaches the limit |
| SockjsHttpReceiver.StepConsistent | sockjs/httpreceiver.go:72-79 | a write keeps the invariant: doneCh is closed once exactly when Closed, and the counter is the byte total modulo 2^32 |
| SockjsHttpReceiver.BulkStep | sockjs/httpreceiver.go:57-66 | no messages: nothing happens; otherwise exactly one write of the data frame of the messages |
| SockjsHttpReceiver.CloseStep | sockjs/httpreceiver.go:87-94 | close ends Closed and does nothing to a closed receiver |
| SockjsHttpReceiver.CloseConsistent | sockjs/httpreceiver.go:87-94 | close keeps the invariant, so doneCh is never closed twice |
| SockjsHttpReceiver.InterruptStep | sockjs/httpreceiver.go:42-52 | the CloseNotify watcher closes interruptCh only while the receiver is not done; nothing else changes |
| SockjsHttpReceiver.RunConsistent | sockjs/httpreceiver.go:68-94 | whatever sequence of writes, closes and interruptions happens, doneCh is closed at most once and the counter stays exact modulo 2^32 |
| SockjsHttpReceiver.ClosedIsFinal | sockjs/httpreceiver.go:15-20 | Closed never returns to Active and a closed receiver writes nothing more |
| SockjsHttpReceiver.WritesOnlyGrow | sockjs/httpreceiver.go:68-83 | what is on the response stays its prefix |
| SockjsHttpReceiver.HttpReceiver.constructor | sockjs/httpreceiver.go:34-55 | a new receiver is Active with nothing written and the given limit and frame writer |
| SockjsHttpReceiver.HttpReceiver.SendFrame | sockjs/httpreceiver.go:68-83 | the new state is Step's |
| SockjsHttpReceiver.HttpReceiver.SendBulk | sockjs/httpreceiver.go:57-66 | the new state is BulkStep's |
| SockjsHttpReceiver.HttpReceiver.Close | sockjs/httpreceiver.go:87-94 | the new state is CloseStep's |
| SockjsHttpReceiver.HttpReceiver.ConnectionClosed | sockjs/httpreceiver.go:44-47 | the new state is InterruptStep's |
| SockjsXhrReceiver.XhrFrame | sockjs/xhrreceiver.go:66 | the frame is the value followed by exactly one newline |
| SockjsXhrReceiver.XhrFrameInverse | sockjs/xhrreceiver.go:66 | the value is the frame without its newline, so distinct values give distinct frames |
| SockjsXhrReceiver.XhrFrameCounts | sockjs/xhrreceiver.go:65-71 | while Active, each frame adds exactly len(value)+1 and closes the receiver iff the counter reaches the limit |
| SockjsXhrReceiver.XhrReceiver.constructor | sockjs/xhrreceiver.go:28-48 | a new receiver is Active with nothing written and the given limit |
| SockjsXhrReceiver.XhrReceiver.SendFrame | sockjs/xhrreceiver.go:61-75 | the new state is the shared Step with newline framing |
| SockjsXhrReceiver.XhrReceiver.SendBulk | sockjs/xhrreceiver.go:50-59 | the new state is BulkStep with newline framing |
| SockjsXhrReceiver.XhrReceiver.Close | sockjs/xhrreceiver.go:79-86 | idempotent close |
| SockjsXhrReceiver.XhrReceiver.ConnectionClosed | sockjs/xhrreceiver.go:37-41 | the watcher closes interruptCh only while not done |
| SockjsEventSourceReceiver.EventSourceFrame | sockjs/eventsourcereceiver.go:58 | `data: ` + value + CRLF CRLF, ten bytes longer than the value |
| SockjsEventSourceReceiver.EventSourceRoundTrip | sockjs/eventsourcereceiver.go:58 | an event-stream reader (section 9.2 of the HTML Living Standard) dispatches one event carrying exactly a one-line value |
| SockjsEventSourceReceiver.DataFrameIsOneEvent | sockjs/eventsourcereceiver.go:42-58 | every data frame arrives as a single event carrying the whole frame |
| SockjsEventSourceReceiver.EventSourceFrameCounts | sockjs/eventsourcereceiver.go:57-63 | while Active, each frame adds len(value)+10 and closes the receiver iff the counter reaches the limit |
| SockjsEventSourceReceiver.EventSourceReceiver.constructor | sockjs/eventsourcereceiver.go:20-40 | a new receiver is Active with nothing written and the given limit |
| SockjsEventSourceReceiver.EventSourceReceiver.SendFrame | sockjs/eventsourcereceiver.go:53-67 | the new state is the shared Step with event-stream framing |
| SockjsEventSourceReceiver.EventSourceReceiver.SendBulk | sockjs/eventsourcereceiver.go:42-51 | the new state is BulkStep with event-stream framing |
| SockjsEventSourceReceiver.EventSourceReceiver.Close | sockjs/eventsourcereceiver.go:71-78 | idempotent close |
| SockjsEventSourceReceiver.EventSourceReceiver.ConnectionClosed | sockjs/eventsourcereceiver.go:29-33 | the watcher closes interruptCh only while not done |
| SockjsLegacyXhrReceiver.SendFrameAsWritten | sockjs/xhr_receiver.go:34-42 | every frame is written with a newline and counted with uint32 wrap-around. Every frame that leaves the counter at or over the limit closes closedNotifCh again |
| SockjsLegacyXhrReceiver.TwoFramesOverTheLimit | sockjs/xhr_receiver.go:34-42 | with limit 1, any two frames close closedNotifCh twice (a panic in Go) |
| SockjsLegacyXhrReceiver.SendFrameGuarded | sockjs/xhr_receiver.go:34-42 | the corrected sendFrame: once closedNotifCh is closed, frames are ignored; before that, it is the code as written |
| SockjsLegacyXhrReceiver.GuardedClosesOnce | sockjs/xhr_receiver.go:37-38 | with the guard, closedNotifCh is closed at most once whatever is sent, and a closed receiver changes no more |
| SockjsLegacyXhrReceiver.GuardAgreesBeforeLimit | sockjs/xhr_receiver.go:34-42 | until the limit is reached, the guarded and the written versions behave identically |
| SockjsLegacyXhrReceiver.CloseCountGrows | sockjs/xhr_receiver.go:37-38 | as written, the close count never decreases |
| SockjsLegacyXhrReceiver.DataFrameOfTwo | sockjs/xhr_receiver_test.go:53 | two plain messages make `a["m1","m2"]`, eight bytes longer than the two together |
| SockjsLegacyXhrReceiver.ResponseLimitScenario | sockjs/xhr_receiver_test.go:50-67 | limit 54: a bulk of two 9-byte messages is a 27-byte write that leaves the channel open; a second one reaches 54 and closes it, once |
| SockjsLegacyXhrReceiver.XhrReceiver.constructor | sockjs/xhr_receiver.go:17-23 | the limit is stored, nothing is written and the channel is open |
| SockjsLegacyXhrReceiver.XhrReceiver.SendFrame | sockjs/xhr_receiver.go:34-42 | the new state is that of the corrected, guarded step of the Findings row: the frame and newline are written and counted with uint32 wrap-around, and the channel closes once when the count reaches the limit |
| SockjsLegacyXhrReceiver.XhrReceiver.SendBulk | sockjs/xhr_receiver.go:25-32 | the caller's array is quoted in place, element by element; then a non-empty bulk is one guarded frame of `a[` + the quoted elements joined by commas + `]` |
| SockjsSession.Session.constructor | sockjs/session.go:64-81 | a new session is Opening, with nothing buffered, no receiver and the disconnect timer armed |
| SockjsSession.Session.Terminate | sockjs/session.go:83-95 | close always ends Closed with the pipe closed and the timer stopped, and closeCh has been closed exactly once |
| SockjsSession.Session.Flush | sockjs/session.go:105-106 | the whole buffer goes to the receiver as one bulk and is emptied; handed-on messages grow by exactly the buffer |
| SockjsSession.Session.SendMessage | sockjs/session.go:97-109 | Closing or Closed: errSessionNotOpen. Otherwise the message is taken; without a receiver it waits in the buffer, with one the whole buffer is handed on. Across calls no message is lost or reordered |
| SockjsSession.Session.AttachReceiver | sockjs/session.go:111-132 | with a receiver attached: errSessionReceiverAttached and nothing changes. In Closing: the receiver gets only the close frame and the session keeps no receiver. Otherwise: `o` only when leaving Opening, then the buffer, and the heartbeat is armed |
| SockjsSession.Session.Heartbeat | sockjs/session.go:134-141 | `h` and re-arming only while a receiver is attached |
| SockjsSession.Session.DetachReceiver | sockjs/session.go:143-150 | no receiver, and the disconnect timer armed |
| SockjsSession.Session.Closing | sockjs/session.go:161-169 | Opening or Active becomes Closing with the pipe closed; later states are kept |
| SockjsSession.Session.Close | sockjs/session.go:172-176 | always overwrites the close frame with `closeFrame(status, reason)`, returns no error, and closes as above |
| SockjsSession.SendWithReceiver | sockjs/session_test.go:156-179 | two messages buffered, then an attach, then two more: all four are handed to the receiver's sendBulk in order (the ghost `flushed` record) and the buffer ends empty; what reaches the wire is not stated, since a small response limit drops later frames |
| SockjsSession.CloseThenAttach | sockjs/session_test.go:245-269 | after Close, every receiver that attaches gets the same single close frame, and the session keeps none |
| SockjsSession.SomeReasonFrame | sockjs/session_test.go:252 | `closeFrame(1, "some reason")` is `c[1,"some reason"]` |
| SockjsHandler.ParseSound | sockjs/handler.go:73-80 | a parsed ID is the session segment at the leftmost place where the prefix is followed by `/`, a server segment, `/`, the session segment and `/` |
| SockjsHandler.ParseShape | sockjs/handler.go:74-78 | every `<prefix>/<server>/<session>/<rest>` parses to its session segment |
| SockjsHandler.NoPrefixNoSession | sockjs/handler.go:74-79 | a path in which the prefix never occurs is an error |
| SockjsHandler.SessionWithoutTail | sockjs/transport_xhr_test.go:59-62 | without a prefix, `/<server>/<session>` with nothing after it is an error |
| SockjsHandler.PrefixExamples | sockjs/handler_test.go:31-41 | under `/prefix`, `/prefix/server/session/whatever` parses to `session`, and `/asdasd/server/session/whatever` does not parse |
| SockjsHandler.FirstMatchSound | sockjs/handler.go:75 | the match found is the leftmost one |
| SockjsHandler.MatchAtShape | sockjs/handler.go:74 | a match is the prefix, `/`, a server segment, `/`, the session segment, `/` |
| SockjsHandler.Table | sockjs/handler.go:36-45 | NewHandler's table has five mappings |
| SockjsHandler.Handler.constructor | sockjs/handler.go:26-47 | that table, an empty registry, and no session served yet |
| SockjsHandler.Handler.SessionByRequest | sockjs/transport_xhr.go:89-111 | an unparsable path is an error and changes nothing. A known ID returns its session. An unknown one registers a fresh session, which is handed to handlerFunc only if there is one |
| SockjsHandler.Handler.SessionEnded | sockjs/transport_xhr.go:103-108 | once closeCh is closed, exactly that ID leaves the registry |
| SockjsHandler.Handler.ServeHTTP | sockjs/handler.go:51-71 | for one verdict per mapping, each path-only verdict carrying its mapping's method: the first full match runs; else 405 with the path-matched methods joined by `", "`, each a method of the table; else 404 |
| SockjsTransportXhr.XhrSend | sockjs/transport_xhr.go:11-38 | the reply is the shared ladder's: payload, JSON, URL, session, in that order |
| SockjsTransportXhr.Poll | sockjs/transport_xhr.go:40-47 | the named session exists afterwards. If it already had a receiver, that session is untouched and the new receiver gets exactly the 2010 close frame. Otherwise the receiver is attached |
| SockjsTransportXhr.XhrPoll | sockjs/transport_xhr.go:40-60 | limit 1: a rejected poll gets only `c[2010,"Another connection still open"]`; a fresh session's poll gets `o` |
| SockjsTransportXhr.XhrStreaming | sockjs/transport_xhr.go:65-87 | the prelude goes out first, outside the receiver's count, then the receiver's frames |
| SockjsTransportXhr.PollEnd | sockjs/transport_xhr.go:48-59 | on return the receiver is detached and the disconnect timer re-armed; a client that went away closes the whole session first |
| SockjsSessions.Connections.constructor | sockjs/sessions.go:14-18 | an empty registry |
| SockjsSessions.Connections.Get | sockjs/sessions.go:20-25 | an entry is found iff the key is present, and it is that key's; nothing changes |
| SockjsSessions.Connections.GetOrCreate | sockjs/sessions.go:27-36 | a present key returns its entry without calling the factory. An absent key calls the factory once and stores and returns its result. Either way the key is present afterwards |
| SockjsSessions.Connections.Delete | sockjs/sessions.go:38-42 | only the given key goes; an absent key changes nothing |
| SockjsJsonp.CallRoundTrip | sockjs/jsonp.go:207-239 | the page reading a `cb("...");` response gets the argument with its escapes undone |
| SockjsJsonp.OpenAndHeartbeatRead | sockjs/jsonp.go:207-215 | the page receives `o` and `h` |
| SockjsJsonp.DataFrameRead | sockjs/jsonp.go:217-234 | the page receives `a[` + the frames, rewritten by `re`, joined by commas + `]`, whatever they hold; the response is one line |
| SockjsJsonp.CloseFrameRead | sockjs/jsonp.go:236-239 | for a message JSON leaves alone, the page receives the close frame `c[<code>,"<msg>"]` |
| SockjsJsonp.SendDataFrame | sockjs/jsonp.go:217-234 | the buffer built frame by frame, with a comma only between items, is the data frame, and the count is its length |
| SockjsJsonp.Step | sockjs/jsonp.go:81-134 | a request is answered iff the connection has not ended. The first request gets `o`. A closed output, and every request once closed, get close 3000 "Go away!". The disconnect delay ends an open or closed connection |
| SockjsJsonp.ClosedForever | sockjs/jsonp.go:124-134 | once closed, every later response is the close frame 3000 "Go away!" with that request's callback, until the connection ends |
| SockjsJsonp.EndedIsFinal | sockjs/jsonp.go:32-36 | after the nil state nothing is answered |
| SockjsJsonpSend.FormValue | sockjs/jsonp-send.go:70 | url.Values.Get: the first value of the key, "" when absent |
| SockjsJsonpSend.ExtractSendContent | sockjs/jsonp-send.go:61-78 | there is content iff the type is exactly `text/plain`, or exactly form-urlencoded with a body that parses. Plain gives the body verbatim, form gives field `d`. Otherwise the error is "Could not parse query" or "Unrecognized content type" |
| SockjsJsonpSend.Decide | sockjs/jsonp-send.go:15-59 | 404 iff the session is unknown; then the extraction error; then "Payload expected." iff under 2 bytes; then "Broken JSON encoding." iff `json.Unmarshal` into `[]interface{}` fails (so `null` passes); accepted iff every check passed, with the payload as sent |
| SockjsJsonpSend.JsonpSendHandler | sockjs/jsonp-send.go:18 | an unknown session is answered before the body is read |
| SockjsJsonpSend.Respond | sockjs/jsonp-send.go:20-57 | 200 "ok" iff accepted, 404 iff the session is unknown, 500 otherwise |
| SockjsJsonpSend.CopiesAgree | sockjs/jsonp.go:136-172 | the copy in jsonp.go answers exactly like jsonp-send.go, except for the newline http.Error adds after an extraction error |
| SockjsJsonpSend.PlainBodyDelivered | sockjs/jsonp-send.go:61-78 | a text/plain JSON array reaches the connection byte for byte; the same body with a charset parameter is refused |
| SockjsHtmlfile.PreludeShape | sockjs/htmlfile.go:125-137 | the page calls `parent.<callback>`. It is at least 1024 bytes before its final CRLF: exactly 1024 spaces are added when the template is shorter than 1024, and none otherwise |
| SockjsHtmlfile.ScriptRoundTrip | sockjs/htmlfile.go:164 | the page's `p` receives the script argument with its escapes undone |
| SockjsHtmlfile.OpenFrameRead | sockjs/htmlfile.go:139-142 | `p` receives `o` |
| SockjsHtmlfile.DataFrameRead | sockjs/htmlfile.go:144-166 | `p` receives `a[` + the rewritten frames joined by commas + `]`, and the frame holds no `<` or line break that could end its script element |
| SockjsHtmlfile.SendDataFrame | sockjs/htmlfile.go:144-166 | the buffer built frame by frame and wrapped in the script element is the data frame; the count is its length |
| SockjsHtmlfile.StreamCounts | sockjs/htmlfile.go:93-102 | whatever a frame is rendered to, the count is the bytes of the data frames written; the loop reports the limit iff the count reached it; every frame was written while the count was below the limit |
| SockjsHtmlfile.StreamFrames | sockjs/htmlfile.go:93-109 | the loop writes what the streaming specification says, and ends the same way |
| SockjsHtmlfile.FirstResponse | sockjs/htmlfile.go:84-112 | the prelude, the open frame, then the streamed data frames |
| SockjsWebsocket.Get | sockjs/websocket.go:33 | Header.Get: the value, or "" when absent |
| SockjsWebsocket.CheckHandshake | sockjs/websocket.go:33-47 | Upgrade, checked first, must be `websocket` in any case. Connection must be `upgrade` or `keep-alive, upgrade`, in any case. A rejection carries one of the two error texts |
| SockjsWebsocket.ProceedHeaders | sockjs/websocket.go:34-46 | headers that pass: `keep-alive, upgrade` is rewritten to `Upgrade`; version 13 without Origin gets Origin from Sec-WebSocket-Origin; every other header passes unchanged |
| SockjsWebsocket.HandshakeSettles | sockjs/websocket.go:33-47 | headers that passed pass again unchanged: the rewrites are idempotent |
| SockjsWebsocket.CloseFrameAgrees | sockjs/websocket.go:108-110 | for a message JSON leaves alone, writeClose writes the session-level close frame |
| SockjsWebsocket.CloseFrameVerbatim | sockjs/websocket.go:108-110 | a message with a quote is not escaped, so the frame differs from the JSON close frame |
| SockjsWebsocket.PostResponse | sockjs/websocket.go:15-28 | the raw response starts with a 405 status line and ends with the blank line that closes the headers |
| SockjsWebsocket.ReaderForwards | sockjs/websocket.go:57-77 | the input receives, in order, the non-empty chunks before the first failed read or non-array chunk; such a read reports the interruption |
| SockjsWebsocket.ReadLoop | sockjs/websocket.go:59-76 | the loop computes exactly the reader's result |
| SockjsWebsocket.WriterStopsAtEnd | sockjs/websocket.go:79-91 | the output is the data frame of each frame offered before the loop ends, in order. A closed output channel then adds close 3000 "Go away!"; an interruption adds nothing and is reported as the end |
| SockjsUtils.NonEmpty | sockjs/utils.go:12-18 | the filtered list is never longer than the input |
| SockjsUtils.NonEmptyConcat | sockjs/utils.go:13-17 | filtering keeps the order of the messages |
| SockjsUtils.NonEmptyMembers | sockjs/utils.go:14 | a message gets through iff it is in the input and not empty |
| SockjsUtils.QueueMessage | sockjs/utils.go:12-18 | the channel receives exactly the non-empty messages, in order |
| SockjsUtils.SendFrame | sockjs/utils.go:20-29 | the count is the bytes written; with no values it is exactly prefix + suffix |
| SockjsUtils.SendFrameCarriesValues | sockjs/utils.go:21-27 | with values and prefix `a`, the bytes are the data frame of the values and then the suffix, and the frame parses back to the values |
| SockjsUtils.StreamingFrames | sockjs/utils.go:20-29 | the xhr-streaming frames: `h\n`, the Go-away close frame line, and the data frame line |
| SockjsUtils.EventSourceDataFrame | sockjs/utils.go:20-29 | with prefix `data: a` and a blank-line suffix, the data frame is one event |
| SockjsUtils.GoAwayIsCloseFrame | sockjs/utils.go:20-29 | the literal Go-away frame written by sendFrame is the close frame 3000 "Go away!" |

## Left out

- Concurrency: goroutines, mutexes, channels and timers. Every method runs atomically, as it does under the session or receiver lock. Timers firing, receiver watchers and CloseNotify watchers are methods the environment calls.
- v3 `Recv`/`RecvCtx`, `ID`, `Request` and `GetSessionState`: these read fields or the receive buffer, which the model keeps as a sequence with a closed flag (`inbound`).
- sockjs/session.go `accept` and `Recv`: they go through `io.Pipe` and `encoding/gob`. Only the pipe's closed flag is modelled.
- The old channel-driven transports other than jsonp, htmlfile and websocket (xhr-polling, xhr-streaming, eventsource, rawwebsocket, conn-utils, struct/types). Also the `run` loops and the request plumbing of `JsonpHandler`/`HtmlfileHandler`, including the callback check and the cookie.
- HTTP I/O: headers, flushing, hijacking, the websocket upgrade, `http.StripPrefix` beyond the prefix check. The CORS and cache helpers of sockjs/utils.go:31-97 and cors.go. The info, iframe and router endpoints.
- `httpError` status codes: only the reply kind and texts are modelled.
- Write errors in the channel-driven transports are ignored, as the source ignores them. Each write is taken to write all its bytes.
- JSON decoding: the xhr_send body's decode result is an input. `json.Unmarshal` into an array and `url.ParseQuery` are parameters, and so is `createDataFrame`.
- SockjsHandler.ParseSessionID: the prefix is treated as literal text. Regular-expression metacharacters in a prefix are not modelled.
- SockjsTransportXhr.Poll: requires a path that parses. The Go code ignores the error and would dereference a nil session; the routes never call it with such a path.
- SockjsTransportXhr.XhrSend: the delivered messages go to the session's gob pipe, which is not modelled.
- SockjsLegacyXhrReceiver.XhrReceiver.SendFrame: runs the corrected, guarded step of the Findings row, not sendFrame as written: once closedNotifCh is closed, later frames are ignored instead of being written and closing the channel again. SockjsSession.Session and SockjsTransportXhr.Poll, XhrPoll and XhrStreaming are built on this class, so their contracts describe the corrected receiver and never reach the double close. The code as written is SockjsLegacyXhrReceiver.SendFrameAsWritten.
- SockjsLegacyXhrReceiver.XhrReceiver.SendBulk: sends its data frame through the same corrected step, with the same consequence for the session and transport contracts built on it.
- V3Xhr.XhrStreaming: on a URL error it returns no receiver, so the prelude already written ahead of the 500 body is not recorded. On a connection that refuses writes, the prelude still counts as written: the write went to the response buffer whose flush failed.
- SockjsLegacyXhrReceiver.TwoFramesOverTheLimit: states the double close only for frames whose total length stays below 2^32.
- The three-message frame of sockjs/xhr_receiver_test.go:41-48 is not stated. Quoting three literal messages exceeds what the verifier unrolls; DataFrameOfTwo and ResponseLimitScenario cover the same framing.
- SockjsWebsocket.CheckHandshake: lower-cases ASCII only. Go's strings.ToLower also folds non-ASCII letters, such as the Kelvin sign to `k`.
- SockjsWebsocket.ReaderForwards: a chunk is what one Read returns. The 32768-byte buffer, which splits longer messages, is not modelled.
- SockjsJsonp.Step: the drain after the first frame takes the frames already queued. If the output channel closes during the drain, the Go loop keeps appending empty frames and never ends; this is not modelled.
- SockjsHtmlfile.Stream: heartbeats write nothing, as in the source. The commented-out close and heartbeat frames are not modelled.
- The duplicate `newXhrReceiver` field of sockjs/handler.go:33 is not modelled. sockjs/transport_xhr.go calls the package function directly, and the model does the same.
- Text encoding: strings are sequences of characters, one byte each. This is exact for the ASCII frames the server builds. Byte counts of non-ASCII messages are not modelled.

## Findings

| source | as written | input that shows it | evidently intended | confidence | as-written member | corrected member |
|---|---|---|---|---|---|---|
| sockjs/xhr_receiver.go:34-42 | `sendFrame` has no closed guard: every frame that leaves the counter at or over the limit closes `closedNotifCh` again | a polling receiver (limit 1) that attaches to a session with buffered messages: the attach writes `o`, which closes the channel, then the buffer's data frame, which closes it a second time (a Go panic) | frames after the limit are ignored and the channel is closed once, as the later receivers do with their state guard | not executed | SockjsLegacyXhrReceiver.TwoFramesOverTheLimit | SockjsLegacyXhrReceiver.GuardedClosesOnce |
