# Janus signaling core of ConductorWs, in Dafny

This project models the signaling layer of `ConductorWs`, the Windows client
of the Janus WebRTC gateway, and proves properties of it. Four parts make up
the layer:

- **The transaction registry and inbound router.** `OnMessageFromJanus` reads
  the `janus` discriminator of each inbound message. A `success` message runs
  the Success continuation of the transaction named by `transaction` and then
  erases it. An `error` message runs the Error continuation and erases it. An
  `event` message runs the Event continuation and keeps the transaction. Every
  other discriminator only logs.
- **The request chain.** It goes create session → attach a handle to
  `janus.plugin.echotest` → join → send the offer. Each step draws a new
  12-character transaction id, registers a transaction under it and sends one
  envelope. The Success continuations of the session and handle steps store
  the id the gateway assigned and start the next step (attach, then join).
  The join and offer requests assign no Success continuation. The offer is
  sent when the media engine's `OnSuccess` hands over the local description
  (conductor_ws.cpp:494), not by a continuation.
- **The outbound queue** `pending_messages_`. Messages leave it one at a time,
  front first, and only while the socket client is not busy sending.
- **Small helpers.** These are the field resets of `DeletePeerConnection`, the
  websocket address of `StartLogin`, and the JSON records built for ICE
  candidates and session descriptions.

Modules, one file each:

- `Wrappers` (`wrappers.dfy`): `Option`.
- `JanusJson` (`json.dfy`): JSON values, the request envelopes and records, and
  their decoders.
- `Text` (`text.dfy`): `std::to_string` for integers, and the websocket address
  with its splitter.
- `OutQueue` (`queue.dfy`): one queue callback as a function, and runs of
  callbacks.
- `Signaling` (`signaling.dfy`): the signaling state as a value. `Route` is the
  router and the `Issue*` functions are the request issuers. Runs of inputs and
  the lemmas live here too.
- `Conductor` (`conductor.dfy`): the class `ConductorWs`. Its fields are the
  conductor's fields. Its methods update them in place and are proved to follow
  `Signaling` and `OutQueue`.

How the model is built:

- A continuation is a closure over the conductor. In the model it is named by
  the issuer that registered it (`TxKind`).
- The gateway's random ids are parameters (`newId`).
- Handing a message to the socket (`SendToJanus`) appends it to `outbox`.
- `IsSendingMessage()` is the input `busy`.
- An exception that escapes `OnMessageFromJanus` is an explicit `Fault`. The
  fields are left as they were when it is raised.

Behaviour of the code that the model keeps as written:

- `std::map::at` on an id that is not in the map throws. This is
  `UnknownTransaction`. So a second `error` for the same transaction raises.
- A message without a `transaction` member is looked up under its discriminator
  (`"success"`, `"error"`, `"event"`). This is because the string the id is
  read into keeps its previous value.
- The Error continuation always receives the code `"123"` and the reason
  `"456"`.
- Only the session and handle requests assign Success and Error continuations.
  The session request assigns no Event continuation. Calling a continuation
  that was never assigned is `EmptyContinuation`. This assumes the header
  declares the continuations as `std::function` members, which are empty until
  assigned. `janus_win/conductor_ws.h` is not part of this model.
- `data.id` goes through `std::stoll`. A missing id is written as `null`, and an
  id in [2^63, 2^64) overflows. Both are `InvalidId`, and neither id changes.
  An integer literal at or above 2^64, or below -2^63, is not followed (see
  "Left out").
- `JoinRoom` and `SendOffer` send the stored `m_SessionId` and `m_HandleId`,
  not their own arguments.
- `trickleCandidate` sends `janus: "message"` and registers nothing. It writes
  the candidate's text over `sdpMid` and writes no `candidate` member.

Where the code departs from its own comments or from the Janus protocol, the
model follows the code:

- An unknown transaction raises. The `if (jt)` checks at conductor_ws.cpp:248,
  :278 and :292 suggest a missing entry was meant to be skipped, but `.at`
  throws before they are reached.
- The gateway's error code and reason are not passed on, although the TODO at
  conductor_ws.cpp:280 says they should be parsed.
- There is no explicit session state such as `Connected` or `Failed`, although
  the TODO at conductor_ws.cpp:226 asks for a state check. The state is only
  the ids and the transaction map.
- Trickle sends `janus: "message"`, where the Janus protocol's trickle request
  has `janus: "trickle"`.

## Model

| member | source | states |
|---|---|---|
| `JanusJson.Encode` | janus_win/conductor_ws.cpp:555-721 | Every request envelope (create, attach, join message, configure message) has the request's discriminator as `janus` and its id as `transaction` |
| `JanusJson.DecodeInvertsEncode` | janus_win/conductor_ws.cpp:555-721 | `Decode` reads back from every envelope exactly the request it was built from, ids, plugin and description included |
| `JanusJson.TrickleEnvelope` | janus_win/conductor_ws.cpp:736-744 | The trickle envelope as assigned equals the canonical trickle request whose `sdpMid` is the candidate text and whose index is `sdpMLineIndex` |
| `JanusJson.TrickleLosesMid` | janus_win/conductor_ws.cpp:736-738 | The envelope does not depend on the candidate's media id; the candidate object's `sdpMid` is the text and it has no `candidate` member |
| `JanusJson.CandidateRecord` | janus_win/conductor_ws.cpp:169-179 | The ICE candidate record reads back as the same media id, line index and candidate text |
| `JanusJson.DescriptionRecord` | janus_win/conductor_ws.cpp:498-503 | The description record holds the type and sdp and no `janus` member |
| `Text.NatToString` | janus_win/conductor_ws.cpp:319 | The decimal text of a number is non-empty, all digits, and without a leading zero |
| `Text.IntToString` | janus_win/conductor_ws.cpp:319 | `std::to_string` writes a minus sign exactly for a negative number, then digits only, and never a colon |
| `Text.IntToStringRoundTrip` | janus_win/conductor_ws.cpp:319 | `std::to_string` of any integer, negative ones included, parses back to that integer |
| `Text.WsUrl` | janus_win/conductor_ws.cpp:319 | The address starts with `ws://`, then the server, then a colon after which no colon follows and whose rest reads back as the port |
| `Text.WsUrlRoundTrip` | janus_win/conductor_ws.cpp:319 | The address `"ws://" + server + ":" + to_string(port)` splits back into exactly that server and port, even when the server contains colons |
| `OutQueue.Step` | janus_win/conductor_ws.cpp:445-461 | One callback appends a present message at the back; it sends the front if and only if the queue is then non-empty and the client is not busy; what it sends followed by what remains is the old queue followed by the new message |
| `OutQueue.RunSteps` | janus_win/conductor_ws.cpp:455-460 | A run of callbacks sends at most one message per callback |
| `OutQueue.RunKeepsOrder` | janus_win/conductor_ws.cpp:449-458 | Over any run of callbacks, the messages sent followed by those pending are the old queue followed by all signalled messages in signalling order |
| `OutQueue.IdleRunDrains` | janus_win/conductor_ws.cpp:455-460 | Callbacks without a new message, while the client is idle, send the pending messages front first, one per callback |
| `Signaling.ParseId` | janus_win/conductor_ws.cpp:538-543 | `stoll` yields the id exactly when `data.id` is present and within 64 bits, and yields it unchanged |
| `Signaling.SuccessResolvesOnce` | janus_win/conductor_ws.cpp:244-253 | A `success` for a stored entry with a Success continuation calls it once and removes the entry; all other entries stay, and only the new id may be added; otherwise the lookup, the missing continuation or the bad id raises |
| `Signaling.ErrorResolvesOnce` | janus_win/conductor_ws.cpp:272-283 | An `error` for a stored entry with an Error continuation calls it once with `("123","456")` and removes exactly that entry; delivering it again raises at the lookup |
| `Signaling.ErrorWithoutContinuationRaises` | janus_win/conductor_ws.cpp:277-282 | An `error` for a missing entry raises `UnknownTransaction` at the lookup; one for an entry without an Error continuation raises `EmptyContinuation` |
| `Signaling.EventKeepsEntry` | janus_win/conductor_ws.cpp:286-296 | An `event` calls the entry's Event continuation and keeps the map and ids unchanged, so a second event reaches the same entry |
| `Signaling.OtherMessagesChangeNothing` | janus_win/conductor_ws.cpp:228-298 | Unparseable text, a missing or empty `janus`, and every discriminator other than success, error and event leave the whole state unchanged |
| `Signaling.IssueCreateSession` | janus_win/conductor_ws.cpp:519-561 | Registers a session transaction under the new id, leaves every other entry, both ids and the call log as they were, and sends one `create` envelope whose `transaction` is the new id |
| `Signaling.IssueCreateHandle` | janus_win/conductor_ws.cpp:563-609 | Registers a handle transaction under the new id, leaves everything else, and sends one `attach` envelope whose `transaction` is the new id |
| `Signaling.IssueJoinRoom` | janus_win/conductor_ws.cpp:611-661 | Registers a join transaction under the new id, leaves everything else, and sends one `message` envelope whose `transaction` is the new id |
| `Signaling.IssueSendOffer` | janus_win/conductor_ws.cpp:671-722 | Registers an offer transaction under the new id, leaves everything else, and sends one `message` envelope whose `transaction` is the new id |
| `Signaling.IssuersRegisterAndSendOne` | janus_win/conductor_ws.cpp:519-722 | The envelope each of the four issuers sends decodes to exactly its request, so it carries the stored session and handle ids, the echo-test plugin and the offer's description |
| `Signaling.IssueTrickle` | janus_win/conductor_ws.cpp:724-746 | Registers nothing and changes neither id; sends nothing when the candidate has no text, and otherwise exactly the trickle request with the stored ids, the line index and the text as `sdpMid` |
| `Signaling.SuccessContinuation` | janus_win/conductor_ws.cpp:525-547 | Raises exactly when no Success continuation was assigned, or when the parsed `data.id` is refused by `stoll`, and then names the key. When it runs, it logs one success; given a message, the session one stores `data.id` as the session id and registers and sends the handle request, and the handle one stores it as the handle id and registers and sends the join request |
| `Signaling.ErrorContinuation` | janus_win/conductor_ws.cpp:549-551 | Raises `EmptyContinuation` exactly when no Error continuation was assigned; otherwise it logs the code and reason and changes nothing else, as the session's and the handle's (:594-596) Error continuations only log |
| `Signaling.EventContinuation` | janus_win/conductor_ws.cpp:590-592 | Raises `EmptyContinuation` exactly when no Event continuation was assigned; otherwise it logs the event and changes nothing else, as the handle's empty one, the join one (:617-647) and the offer one (:676-699) change no signaling state |
| `Signaling.Route` | janus_win/conductor_ws.cpp:222-299 | A message the router does not act on changes nothing. One it acts on raises at the lookup exactly when its key is absent, and every fault names that key. Otherwise no entry appears except under the new id, `success` and `error` remove their key, and the call log grows by at most one |
| `Signaling.SuccessContinuationsChain` | janus_win/conductor_ws.cpp:525-588 | The session continuation sets the session id to `data.id` and sends `attach` to the echo-test plugin with that `session_id`; the handle continuation sets the handle id and sends a `message` with both ids and body `{audio: true, video: true}` |
| `Signaling.UnparsedPayloadKeepsIds` | janus_win/conductor_ws.cpp:527-532 | When the continuation's parse fails, neither id, the map nor the outbox changes |
| `Signaling.RoutePreservesValid` | janus_win/conductor_ws.cpp:222-299 | The router keeps every entry stored under its own transaction id and both ids within 64 bits |
| `Signaling.ApplyAvoidsAbsentKey` | janus_win/conductor_ws.cpp:244-296 | One input runs no continuation for an id that is absent and not newly drawn, and does not re-add it |
| `Signaling.RemovedStaysRemoved` | janus_win/conductor_ws.cpp:247-282 | Once an entry is removed, no later continuation runs for its id in any run of inputs that does not draw that id again: Success and Error run at most once per transaction |
| `Signaling.RunPreservesValid` | janus_win/conductor_ws.cpp:515-722 | Every run of connect, message and offer inputs keeps the state valid |
| `Signaling.Handshake` | janus_win/conductor_ws.cpp:515-661 | Connect, then the session's and the handle's `success`, store both gateway ids, leave only the join transaction pending, and send create, attach and join in order |
| `Conductor.ConductorWs.constructor` | janus_win/conductor_ws.cpp:43-44 | Starts with no transactions, an empty queue, `peer_id_ == -1` and loopback off |
| `Conductor.ConductorWs.DeletePeerConnection` | janus_win/conductor_ws.cpp:123-130 | Always leaves `peer_id_ == -1` and loopback off |
| `Conductor.ConductorWs.StartLogin` | janus_win/conductor_ws.cpp:315-321 | Does nothing when connected; otherwise stores the server and connects to `ws://server:port` with client name `"1111"` |
| `Conductor.ConductorWs.CreateSession` | janus_win/conductor_ws.cpp:519-561 | Registers the session transaction and sends `create`, as `IssueCreateSession` |
| `Conductor.ConductorWs.CreateHandle` | janus_win/conductor_ws.cpp:563-609 | Registers the handle transaction and sends `attach`, as `IssueCreateHandle` |
| `Conductor.ConductorWs.JoinRoom` | janus_win/conductor_ws.cpp:611-661 | Registers the join transaction and sends the join `message`, as `IssueJoinRoom` |
| `Conductor.ConductorWs.SendOffer` | janus_win/conductor_ws.cpp:671-722 | Registers the offer transaction and sends the configure `message` with the local description, as `IssueSendOffer` |
| `Conductor.ConductorWs.TrickleCandidate` | janus_win/conductor_ws.cpp:724-746 | Sends the trickle envelope, or nothing when the candidate has no text; registers nothing |
| `Conductor.ConductorWs.OnJanusConnected` | janus_win/conductor_ws.cpp:515-517 | Starts the chain with `CreateSession` |
| `Conductor.ConductorWs.InvokeSuccess` | janus_win/conductor_ws.cpp:525-588 | Runs the entry's Success continuation as `SuccessContinuation` says, or raises with the fields unchanged |
| `Conductor.ConductorWs.InvokeError` | janus_win/conductor_ws.cpp:549-596 | Runs the entry's Error continuation, or raises when it has none |
| `Conductor.ConductorWs.InvokeEvent` | janus_win/conductor_ws.cpp:590-699 | Runs the entry's Event continuation, or raises when it has none |
| `Conductor.ConductorWs.OnMessageFromJanus` | janus_win/conductor_ws.cpp:222-299 | Updates the map, ids, outbox and call log exactly as `Route` says, or raises with all fields unchanged; the queue and peer fields never change |
| `Conductor.ConductorWs.SendMessageToPeer` | janus_win/conductor_ws.cpp:445-461 | Updates the queue and sends as `OutQueue.Step` says |
| `Conductor.ConductorWs.SendMessage` | janus_win/conductor_ws.cpp:510-513 | Runs the queue callback with the message |
| `Conductor.ConductorWs.OnMessageSent` | janus_win/conductor_ws.cpp:301-304 | Runs the queue callback without a message |
| `Conductor.ConductorWs.OnIceCandidate` | janus_win/conductor_ws.cpp:159-181 | Queues the candidate record unless in loopback or the candidate has no text |
| `Conductor.ConductorWs.OnLocalDescription` | janus_win/conductor_ws.cpp:494-503 | Sends the offer as `IssueSendOffer`, then queues the description record |

## Left out

- The media engine is left out, because it is a foreign library whose code is not visible. This covers:
  - the peer-connection factory, tracks and capture devices (conductor_ws.cpp:62-121, 348-413);
  - `SetLocalDescription`, `SetRemoteDescription` and `AddIceCandidate` (159-167, 488-493, 689-697);
  - the `InitializePeerConnection` and `CreateOffer` calls at the end of `JoinRoom` (662-668);
  - `ReinitializePeerConnectionForLoopback`, the only place that sets loopback.
  `InitializePeerConnection` can itself call `DeletePeerConnection` when it fails, so the model does not reset the peer fields there.
- The Event continuations of the join and offer transactions change no signaling state:
  - The join continuation only logs whether `data.result` is `"ok"`, so `data.result` is not modelled.
  - The offer continuation reads `jsep` from an empty value instead of the message, so the inbound `jsep` never reaches it and is not modelled either.
- All window work is left out: window switching, renderers, message boxes and the `PEER_CONNECTION_CLOSED`, `NEW_TRACK_ADDED` and `TRACK_REMOVED` callbacks.
- The jsoncpp reader and writer are left out. Text is not serialized: `outbox` and the queue hold documents.
  - An inbound message is reduced to its `janus` and `transaction` strings and an integer `data.id`. `None` stands for text that does not parse.
  - `rtc::GetStringFromJsonObject` also turns a numeric or boolean member into a string. The model takes that conversion as already done.
- `RandomString(12)` is not shown, so its ids are parameters. Inputs whose ids collide are allowed, and the model follows them as written.
- The thread hop is not modelled. `QueueUIThreadCallback` is taken to run the callback at once. `IsSendingMessage` is an input.
- The socket client's `Connect`, `SignOut` and `SendToJanus` are represented only by what they are given: the `ConnectCall` and `outbox`.
- Logging and console output are left out. The log of completed continuations (`calls`) stands in for what the continuations print.
- `m_SessionId` and `m_HandleId` are not set in the constructor's initializer list. They are taken to start at 0.
- `Signaling.ParseId`: `data.id` is taken to be an integer, and every integer outside the signed 64-bit range is `InvalidId`. That holds only for [2^63, 2^64), where `stoll` throws. jsoncpp reads an integer literal at or above 2^64, or below -2^63, as a double, as it does a non-integer number. `JsonValueToString` then writes text such as `1e+20`, and `stoll` reads its leading digits without throwing. So `{"data":{"id":100000000000000000000}}` sets the id to 1 in the code (conductor_ws.cpp:540-543, :582-585). The model does not follow doubles.
- `trickleCandidateComplete` has an empty body, so there is nothing to model.
