# Dome camera signalling, modelled in Dafny

This project models the signalling layer of a WebRTC camera-streaming system in
Dafny and proves properties of it. The layer has two parts:

- **The mediator** (`signaling-server/server.js`). A Node WebSocket server keeps
  two registries: `clients` maps a connection id to its role and stream, and
  `streams` maps a stream id to its streamer and its set of viewers. It registers
  streamers and viewers, relays `offer`, `answer` and `ice-candidate` frames
  between peers, and ends streams.
- **The streamer's signalling client**, written twice: `SignalingClient.kt` and
  `SignalingClient.java`. It decodes the mediator's frames into listener
  callbacks, and it builds the frames the streamer sends.

Node runs one handler at a time. So the mediator is a pure transition
`Mediator.Step(policy, state, event)`: it takes one socket event (accept,
message, a socket leaving the OPEN state, close) and returns the new registries
plus the frames sent, in order.

`Policy.AsWritten` is the code as it stands. `Policy.Guarded` adds four checks:

- registration is accepted only from a connection that has not registered yet;
- a streamer's stream id must be one a template literal can print;
- `stop-stream` is honoured only from the stream's own streamer;
- `viewer-left` is sent only for a viewer the stream still lists.

A transition also records whether the handler threw outside any `try`. In Node
that ends the process.

The Guarded policy is used under "## Findings".

Each client's `handleMessage` becomes a pure function from the client state and
an incoming frame to a `Reaction`: the new state and the effects in order. An
effect is a listener callback, a frame written, or the socket closed.

Modules:

- `Json`: JSON values. `Get` is property lookup, and the last duplicate key wins. `Members` keeps one member per key, at the key's first position and with its last value. `Serialize` is compact JSON text. `JsExact` names the values JSON.parse reads back unchanged.
- `Gson`: the Gson calls the clients make, with the exceptions they throw.
- `Mediator`: registries, events, handlers, and the wire shape of each outbound frame.
- `MediatorProperties`: properties of whole steps, and the registry invariant `WellFormed`.
- `MediatorFindings`: the registry invariants `Consistent`, proved for the Guarded machine. They are: `WellFormed`; every bound stream id is truthy and printable; every listed viewer is registered as a viewer of that stream; every stream's streamer is registered as its streamer. The module also holds concrete runs of the as-written machine that break these invariants or crash the process.
- `ClientCore`: what both clients share, including the switch on `type`.
- `KotlinClient`, `JavaClient`: where the two clients differ.
- `ClientProperties`: properties of decoding, of the two variants, and of disconnect.
- `EndToEnd`: frames written by one side and parsed by the other.

## Model

| member | source | states |
|---|---|---|
| Json.Get | signaling-server/server.js:147 | property lookup: absent exactly when no member has the key, otherwise the value of the last member with that key |
| Json.Serialize | android-app/app/src/main/java/com/example/webrtcstreamer/webrtc/SignalingClient.kt:107 | JSON text of a value; its first character says whether it is a string, an object or an array |
| Json.SerializeString | android-app/app/src/main/java/com/dome/streamer/webrtc/SignalingClient.java:140 | toString of a string element is never the bare string: it is at least two characters longer, starts and ends with a quote, and its body unescapes back to the string |
| Json.EscapeRoundTrip | android-app/app/src/main/java/com/dome/streamer/webrtc/SignalingClient.java:140 | unescaping the escaped body of a string gives the string back |
| Json.Keys | signaling-server/server.js:62 | the keys of an object, each once, in first-occurrence order; exactly the keys some member has |
| Json.Members | signaling-server/server.js:62 | JSON.parse keeps one member per key: keys distinct, each member taken from the object, each value the one lookup finds |
| Json.MembersLookup | signaling-server/server.js:62 | keeping one member per key changes no lookup |
| Json.MembersDistinct | signaling-server/server.js:62 | an object with distinct keys keeps all its members in order |
| Gson.ReadObject | android-app/app/src/main/java/com/example/webrtcstreamer/webrtc/SignalingClient.kt:66 | parsing a frame as JsonObject succeeds exactly on an object and yields its members; blank text fails with NullPointerException at the first read |
| Gson.AsString | android-app/app/src/main/java/com/example/webrtcstreamer/webrtc/SignalingClient.kt:67 | getAsString: a string gives itself, numbers and booleans give text, JSON null and objects throw |
| Gson.MemberString | android-app/app/src/main/java/com/dome/streamer/webrtc/SignalingClient.java:92 | a member read as a string: absent gives null, a JSON null throws, a string gives its text |
| ClientCore.Failed | android-app/app/src/main/java/com/example/webrtcstreamer/webrtc/SignalingClient.kt:119-121 | the catch block: exactly one onError with the "Failed to parse message: " prefix and the exception detail, nothing sent, and the state it is given kept |
| ClientCore.Send | android-app/app/src/main/java/com/example/webrtcstreamer/webrtc/SignalingClient.kt:162-164 | exactly the one frame is written when a socket exists, and nothing otherwise |
| ClientCore.HandleConnected | android-app/app/src/main/java/com/example/webrtcstreamer/webrtc/SignalingClient.kt:70-76 | connected: the client id is stored even when null; with an id, onConnected fires first and the registration frame follows while a socket exists |
| ClientCore.HandleRegistered | android-app/app/src/main/java/com/example/webrtcstreamer/webrtc/SignalingClient.kt:78-84 | registered: streamId is overwritten (even with null) before embedUrl is read; onStreamRegistered fires only with both present |
| ClientCore.Dispatch | android-app/app/src/main/java/com/example/webrtcstreamer/webrtc/SignalingClient.kt:67-118 | the switch on type: at most one callback, the only possible frame is the registration, the client id changes only on connected and the stream id only on registered, no type does nothing |
| ClientCore.Envelope | android-app/app/src/main/java/com/dome/streamer/webrtc/SignalingClient.java:173-176 | an outbound envelope carries its type, its payload under the payload key, and the target id |
| ClientCore.SendOffer | android-app/app/src/main/java/com/example/webrtcstreamer/webrtc/SignalingClient.kt:133-142 | the offer text is nested as a JSON object, blank text as JSON null; any other text throws and nothing is sent |
| ClientCore.SendAnswer | android-app/app/src/main/java/com/example/webrtcstreamer/webrtc/SignalingClient.kt:144-151 | one answer frame carrying the answer as a string and the target id unchanged, when a socket exists |
| ClientCore.SendIceCandidate | android-app/app/src/main/java/com/example/webrtcstreamer/webrtc/SignalingClient.kt:153-160 | one ice-candidate frame carrying the candidate as a string and the target id unchanged, when a socket exists |
| ClientCore.Disconnect | android-app/app/src/main/java/com/example/webrtcstreamer/webrtc/SignalingClient.kt:166-175 | stop-stream is sent exactly when a stream id is known and a socket exists; the socket is closed with 1000 "Closing connection" exactly when one exists and is then gone; nothing is written after the close |
| KotlinClient.RegisterMessage | android-app/app/src/main/java/com/example/webrtcstreamer/webrtc/SignalingClient.kt:124-131 | the Kotlin registration always asks for stream id "dome-camera" |
| KotlinClient.AnswerText | android-app/app/src/main/java/com/example/webrtcstreamer/webrtc/SignalingClient.kt:93-97 | the read succeeds exactly when the answer is absent, an object, or readable by getAsString; an object gives its JSON text, a string itself; a failure is getAsString's exception |
| KotlinClient.HandleMessage | android-app/app/src/main/java/com/example/webrtcstreamer/webrtc/SignalingClient.kt:64-122 | a frame that is not an object is one onError; at most one callback; the only frame sent is the registration |
| JavaClient.SetStreamId | android-app/app/src/main/java/com/dome/streamer/webrtc/SignalingClient.java:45-47 | sets the stream id and nothing else |
| JavaClient.RegisterMessage | android-app/app/src/main/java/com/dome/streamer/webrtc/SignalingClient.java:161-168 | the Java registration carries streamId exactly when the client knows one |
| JavaClient.AnswerText | android-app/app/src/main/java/com/dome/streamer/webrtc/SignalingClient.java:120-132 | the guarded answer read never fails; a read that throws leaves the answer null |
| JavaClient.HandleMessage | android-app/app/src/main/java/com/dome/streamer/webrtc/SignalingClient.java:89-159 | a frame that is not an object is one onError; at most one callback; the only frame sent is the registration |
| ClientProperties.ConnectedRegisters | android-app/app/src/main/java/com/example/webrtcstreamer/webrtc/SignalingClient.kt:70-76 | a greeting with an id stores it, fires onConnected(id) first, and then sends the registration while a socket exists |
| ClientProperties.ConnectedWithoutIdForgets | android-app/app/src/main/java/com/example/webrtcstreamer/webrtc/SignalingClient.kt:71-72 | a greeting without an id clears the stored id; no callback fires and nothing is sent |
| ClientProperties.RegisteredAssigns | android-app/app/src/main/java/com/example/webrtcstreamer/webrtc/SignalingClient.kt:78-84 | the stream id becomes whatever the frame holds, an absent one as null; onStreamRegistered fires exactly when both fields are present |
| ClientProperties.RegisteredKeepsIdOnBadUrl | android-app/app/src/main/java/com/example/webrtcstreamer/webrtc/SignalingClient.kt:79-80 | an unreadable embedUrl still leaves the new stream id stored, and gives one onError |
| ClientProperties.ViewerJoinedNotifies | android-app/app/src/main/java/com/example/webrtcstreamer/webrtc/SignalingClient.kt:86-89 | onViewerJoined fires exactly when the frame names a viewer |
| ClientProperties.AnswerNotifies | android-app/app/src/main/java/com/example/webrtcstreamer/webrtc/SignalingClient.kt:98-103 | onAnswer fires exactly when both an answer and a sender are present; an answer read that throws gives one onError |
| ClientProperties.IceCandidateNotifies | android-app/app/src/main/java/com/example/webrtcstreamer/webrtc/SignalingClient.kt:106-112 | onIceCandidate gets the candidate's JSON text, and fires exactly when both candidate and sender are present |
| ClientProperties.IceCandidateQuoted | android-app/app/src/main/java/com/dome/streamer/webrtc/SignalingClient.java:140-146 | a string candidate reaches the listener with its quotes |
| ClientProperties.ErrorReported | android-app/app/src/main/java/com/example/webrtcstreamer/webrtc/SignalingClient.kt:114-117 | error always fires onError, with the message or "Unknown error" |
| ClientProperties.UnhandledIgnored | android-app/app/src/main/java/com/dome/streamer/webrtc/SignalingClient.java:92-154 | a frame without a type, or with a type no case names, changes nothing |
| ClientProperties.ParseFailureReported | android-app/app/src/main/java/com/dome/streamer/webrtc/SignalingClient.java:155-158 | text that is not a JSON object gives one onError and no state change, the same in both variants |
| ClientProperties.AnswerReadingsAgree | android-app/app/src/main/java/com/dome/streamer/webrtc/SignalingClient.java:120-132 | whenever the Kotlin answer read succeeds, the Java read gives the same answer |
| ClientProperties.AnswerObjectOrString | android-app/app/src/main/java/com/example/webrtcstreamer/webrtc/SignalingClient.kt:91-104 | both variants deliver an object answer as its JSON text and a string answer as-is |
| ClientProperties.VariantsAgree | android-app/app/src/main/java/com/dome/streamer/webrtc/SignalingClient.java:89-159 | once the Java client's stream id is "dome-camera", both variants react identically to every frame whose answer the Kotlin read can take |
| ClientProperties.NullAnswerDiffers | android-app/app/src/main/java/com/example/webrtcstreamer/webrtc/SignalingClient.kt:93-97 | a JSON null answer is an onError in Kotlin and silence in Java |
| ClientProperties.RegistrationRequestsDiffer | android-app/app/src/main/java/com/dome/streamer/webrtc/SignalingClient.java:161-168 | with no stream id set, the Java registration carries no streamId, while the Kotlin one asks for "dome-camera" |
| ClientProperties.DisconnectTwiceSilent | android-app/app/src/main/java/com/example/webrtcstreamer/webrtc/SignalingClient.kt:166-175 | a second disconnect has no effect at all |
| ClientProperties.NothingSentAfterDisconnect | android-app/app/src/main/java/com/dome/streamer/webrtc/SignalingClient.java:204-208 | after disconnect, the send functions write nothing |
| Mediator.JsString | signaling-server/server.js:135-141 | a template literal prints strings as themselves and null, booleans and numbers always; it throws exactly for an object with its own toString member, or an array holding an element that throws |
| Mediator.ToMembers | signaling-server/server.js:228-262 | the messages addressed to a connection are exactly those sent to it |
| Mediator.EmbedUrl | signaling-server/server.js:141 | the embed link exists exactly when the key prints, starts with the viewer page URL, and ends with a string key |
| Mediator.SetAdd | signaling-server/server.js:161 | Set.add: the viewers gain exactly the new id, and no id is listed twice |
| Mediator.SetRemove | signaling-server/server.js:252 | Set.delete: the viewers lose exactly that id, and no id is listed twice |
| Mediator.Broadcast | signaling-server/server.js:228-235 | stream-ended goes to exactly the listed viewers that are present and OPEN |
| Mediator.AcceptClient | signaling-server/server.js:49-83 | a new unassigned entry, other entries unchanged, and one connected greeting to the new connection only |
| Mediator.RegisterStreamer | signaling-server/server.js:121-143 | the key is the truthy requested id or the fresh one. The caller owns a new stream with no viewers, and other streams are unchanged. The guarded policy changes nothing for an unprintable key. One reply goes to the caller: registered with the embed URL exactly when the key prints, otherwise the format error |
| Mediator.RegisterViewer | signaling-server/server.js:145-179 | a missing, falsy or unknown id gives one error and no change; otherwise the caller joins, is told, and the streamer hears of it when OPEN |
| Mediator.Relay | signaling-server/server.js:181-218 | the frame goes to the target exactly when it is present and OPEN, with the payload unchanged and the caller as sender; registries never change |
| Mediator.EndStream | signaling-server/server.js:228-237 | the stream's key is removed and every other stream, client and open socket is kept; stream-ended goes to exactly its present, OPEN viewers |
| Mediator.StopStream | signaling-server/server.js:220-239 | when the caller is bound to an existing stream (and, under the guarded policy, is its streamer), exactly that key is removed and other streams, clients and sockets are kept. The recipients are exactly the present, OPEN viewers, plus the caller when the key cannot be printed. Each gets stream-ended, except the caller's final format error. Otherwise nothing happens |
| Mediator.ViewerLeaves | signaling-server/server.js:249-263 | the viewer leaves the stream's set and nothing else changes; the streamer is told once, exactly when OPEN (and, under the guarded policy, only if the set listed the viewer) |
| Mediator.Disconnect | signaling-server/server.js:241-266 | the socket leaves the open set. The handler throws exactly when a streamer's stop ends a stream under an unprintable key; the entry is then left in place with that stream gone. Otherwise the entry is removed and no other entry is |
| MediatorProperties.DispatchReach | signaling-server/server.js:85-119 | a handled message never throws out of the try and opens or closes no socket. It keeps the set of entries and changes no entry but the sender's; under the guarded policy it leaves an entry with a role unchanged. It adds no stream but the registration key, and removes no stream but the one the sender is bound to |
| MediatorProperties.ReceiveReach | signaling-server/server.js:60-68 | a message never throws out of its handler and keeps the set of entries and the open sockets. Only an object from a registered connection changes the registries, and then only the sender's entry among them. Any frame to another connection needs a parsed document from a registered sender |
| MediatorProperties.StepReach | signaling-server/server.js:49-76 | one socket event. Only a close can throw, and exactly when a streamer's stop ends a stream under an unprintable key. Only an accept adds an entry or opens a socket. A message keeps the entries and the open set. A socket leaving OPEN changes nothing else and sends nothing. A close shuts the socket and, unless it throws, removes the entry |
| Mediator.Wire | signaling-server/server.js:137-142 | every outbound frame is an object whose first member is its type |
| MediatorProperties.AcceptGreets | signaling-server/server.js:49-58 | a fresh id gets an entry with null role and stream, and exactly one greeting naming it |
| MediatorProperties.UnknownSenderIgnored | signaling-server/server.js:85-87 | a parsed frame from an unknown connection changes nothing and sends nothing |
| MediatorProperties.UnknownTypeIgnored | signaling-server/server.js:116-117 | a type no case names changes nothing; the sender gets one format error exactly when the logged type cannot be printed |
| MediatorProperties.MalformedAnswered | signaling-server/server.js:60-68 | unparsable text, or a null document from a known connection, gets one "Invalid message format" error to the sender and changes nothing |
| MediatorProperties.RegisterStreamerReplies | signaling-server/server.js:121-143 | as written, registration always binds the caller to the key and creates the stream with no viewers, keeping every other stream; the reply is the embed URL when the key prints and the format error otherwise |
| MediatorProperties.EmbedUrlNamesStream | signaling-server/server.js:268-271 | the embed URL of a string id is the base URL, "/viewer.html?streamId=", then the id |
| MediatorProperties.RegisterViewerNotFound | signaling-server/server.js:149-155 | an absent or unknown stream id gives "Stream not found" to the caller only, and no change |
| MediatorProperties.RegisterViewerJoins | signaling-server/server.js:157-161 | joining binds the caller as a viewer, lists it, and keeps the streams and the streamer |
| MediatorProperties.RegisterViewerNotifies | signaling-server/server.js:165-178 | the viewer is told it registered; the streamer gets viewer-joined exactly when it is OPEN |
| MediatorProperties.WireConnected | signaling-server/server.js:79-82 | the greeting frame carries type connected and the client id |
| MediatorProperties.WireRegistered | signaling-server/server.js:137-142 | the streamer's registered frame carries its role, stream id and embed URL |
| MediatorProperties.WireRelayed | signaling-server/server.js:186-190 | a relayed frame carries its type, the payload under its own key, and the sender |
| MediatorProperties.WireViewerJoined | signaling-server/server.js:172-177 | the viewer-joined frame carries its type and the viewer's id |
| MediatorProperties.WireViewerLeft | signaling-server/server.js:257-261 | the viewer-left frame carries its type and the viewer's id |
| MediatorProperties.WireError | signaling-server/server.js:150-153 | an error frame carries type error and its message |
| MediatorProperties.WireStreamEnded | signaling-server/server.js:231-233 | the stream-ended frame carries its type and nothing else |
| MediatorProperties.RelayForwards | signaling-server/server.js:181-218 | a relay frame naming a present, OPEN target is forwarded to it alone, and the registries do not change |
| MediatorProperties.RelaySymmetric | signaling-server/server.js:194-205 | the relayed frame's payload is the very value the sender put under the same key |
| MediatorProperties.RelayToAbsentDropped | signaling-server/server.js:183-185 | a relay to an absent or closed target sends nothing and changes nothing |
| MediatorProperties.StopStreamEndsBoundStream | signaling-server/server.js:220-239 | as written, stop-stream from any connection bound to an existing stream deletes that stream and broadcasts its end, then answers with the format error when the key cannot be printed |
| MediatorProperties.StopStreamTellsEachOnce | signaling-server/server.js:228-238 | each present, OPEN viewer of the ended stream gets exactly one stream-ended; the caller also gets one format error when the key cannot be printed; no one else gets anything |
| MediatorProperties.ToAppend | signaling-server/server.js:228-238 | the messages to a connection from two batches are those of the first, then those of the second |
| MediatorProperties.ToBroadcast | signaling-server/server.js:228-235 | over a viewer set without repeats, a connection gets one stream-ended exactly when it is a present, OPEN viewer |
| MediatorProperties.BroadcastOncePerViewer | signaling-server/server.js:228-235 | each present, OPEN viewer is told exactly once, and no one else is told |
| MediatorProperties.BroadcastDistinct | signaling-server/server.js:228-235 | no connection is addressed twice by the broadcast |
| MediatorProperties.StopStreamTwice | signaling-server/server.js:222-225 | a second stop-stream does nothing: no broadcast and no error |
| MediatorProperties.CloseAfterStopStreamSilent | signaling-server/server.js:247-248 | after stop-stream, the streamer's disconnect sends nothing and does not throw |
| MediatorProperties.BroadcastIgnoresClosedPeer | signaling-server/server.js:230 | closing one socket removes exactly that connection's frames from the broadcast |
| MediatorProperties.CloseStreamerIsStopStream | signaling-server/server.js:247-248 | a streamer's disconnect is stop-stream, minus frames to itself. It throws exactly when that stop ends a stream under an unprintable key, and then keeps the entry; otherwise the entry is removed |
| MediatorProperties.CloseViewerLeaves | signaling-server/server.js:249-265 | a viewer's disconnect removes it from the set and keeps the stream. Another streamer that is OPEN is notified once, and under the guarded policy only if the set listed the viewer |
| MediatorProperties.StepKeepsWellFormed | signaling-server/server.js:49-266 | every event keeps these facts: only connections present in the client registry are OPEN, viewer sets have no repeats, and a connection has a role exactly when it has a stream |
| MediatorProperties.DispatchKeepsWellFormed | signaling-server/server.js:85-119 | every handled message keeps the well-formedness invariant |
| MediatorProperties.DisconnectKeepsWellFormed | signaling-server/server.js:241-266 | disconnect keeps the well-formedness invariant |
| MediatorFindings.GuardedStepKeepsConsistent | signaling-server/server.js:145-161 | with the guards, every event keeps Consistent: WellFormed, bound ids truthy and printable, listed viewers registered as viewers of that stream, and streamers present and registered as streamers of theirs |
| MediatorFindings.AcceptKeepsConsistent | signaling-server/server.js:49-58 | a new connection with a fresh id keeps the invariants |
| MediatorFindings.RegisterStreamerKeepsConsistent | signaling-server/server.js:121-143 | registering an unassigned streamer keeps the invariants |
| MediatorFindings.RegisterViewerKeepsConsistent | signaling-server/server.js:157-161 | registering an unassigned viewer keeps the invariants |
| MediatorFindings.GuardedDisconnectKeepsConsistent | signaling-server/server.js:241-266 | with the guards, every disconnect keeps the invariants |
| MediatorFindings.GuardedOnlyOwnerEndsStream | signaling-server/server.js:220-239 | with the guards, no event from another connection removes a stream or changes its streamer, except a takeover by registration |
| MediatorFindings.ViewerEndsStreamAsWritten | signaling-server/server.js:220-239 | as written, a viewer's stop-stream ends a live streamer's stream |
| MediatorFindings.TakeOverAsWritten | signaling-server/server.js:128-133 | as written, a second registration of a key hands it to the new streamer with no viewers, and the old streamer stays bound to it |
| MediatorFindings.DisplacedCloseDeletes | signaling-server/server.js:247-248 | as written, a displaced streamer's disconnect deletes the stream now owned by another connection; the Guarded policy keeps it |
| MediatorFindings.DisplacedStreamerEndsTakeoverAsWritten | signaling-server/server.js:241-248 | a concrete run: S's stream is taken over by T, and S's disconnect deletes T's stream |
| MediatorFindings.ViewerInTwoStreamsAsWritten | signaling-server/server.js:145-161 | as written, a viewer that joins a second stream stays listed in the first, breaking the viewer invariant |
| MediatorFindings.UnprintableKeyCrashesAsWritten | signaling-server/server.js:121-143 | as written, a stream id with a toString member is bound and owns its stream, yet its registration is answered with an error; the later close throws with the entry still in place; the guarded policy refuses the id and changes nothing |
| MediatorFindings.GuardedNeverCrashes | signaling-server/server.js:241-248 | with the guards, from registries whose bound ids all print, no event throws out of a handler, and the bound ids keep printing |
| MediatorFindings.GuardedDispatchKeepsPrintable | signaling-server/server.js:121-161 | with the guards, no message binds a connection to an id that cannot be printed |
| MediatorFindings.OrphanedViewerLeftAsWritten | signaling-server/server.js:249-263 | a concrete run: "S" stops "cam" watched by "V", and "T" registers "cam" under either policy, leaving Consistent registries in which "V" is bound to "cam" but not listed. When "V" closes, the source tells "T" viewer-left; the guarded policy sends nothing |
| MediatorFindings.GuardedViewerLeftOnlyListed | signaling-server/server.js:249-263 | with the guards, every viewer-left goes to the streamer of a stream that lists the departing viewer |
| EndToEnd.GreetingTriggersRegistration | android-app/app/src/main/java/com/example/webrtcstreamer/webrtc/SignalingClient.kt:70-76 | the mediator's greeting makes the Kotlin client store its id and send its registration |
| EndToEnd.ServerRegistersFixedId | signaling-server/server.js:121-143 | the mediator registers that request under "dome-camera" and replies with its embed URL |
| EndToEnd.RegistrationReachesListener | android-app/app/src/main/java/com/example/webrtcstreamer/webrtc/SignalingClient.kt:78-84 | that reply reaches onStreamRegistered with "dome-camera" and the viewer URL naming it |
| EndToEnd.StreamerRegistration | signaling-server/server.js:137-142 | the whole exchange ends with the client knowing both its ids and the listener told the embed URL |
| EndToEnd.OfferReachesViewer | signaling-server/server.js:181-192 | an offer sent by the client reaches an OPEN viewer as the same object, with the client as sender, when JSON.parse reads its text back exactly |
| EndToEnd.AnswerReachesStreamer | signaling-server/server.js:194-205 | a viewer's object or string answer reaches the streamer's onAnswer with the viewer as sender |
| EndToEnd.CandidateArrivesQuoted | signaling-server/server.js:207-218 | a candidate one client sends as a string reaches another client's listener quoted |
| EndToEnd.CandidateTextQuoted | android-app/app/src/main/java/com/example/webrtcstreamer/webrtc/SignalingClient.kt:107 | a relayed string candidate is handed over as its JSON text |
| EndToEnd.DisconnectEndsStream | signaling-server/server.js:220-239 | the client's disconnect sends stop-stream, and the mediator ends the client's own stream and tells its viewers |
| EndToEnd.ViewerJoinReachesStreamer | android-app/app/src/main/java/com/example/webrtcstreamer/webrtc/SignalingClient.kt:86-89 | a viewer joining the client's stream makes the mediator send viewer-joined to the OPEN client, and that frame fires onViewerJoined with the viewer's id |
| EndToEnd.ErrorReachesListener | android-app/app/src/main/java/com/example/webrtcstreamer/webrtc/SignalingClient.kt:114-117 | every error frame the mediator sends fires onError with its message |
| EndToEnd.DepartureFramesIgnored | android-app/app/src/main/java/com/example/webrtcstreamer/webrtc/SignalingClient.kt:66-118 | the viewer-left and stream-ended frames the mediator sends change nothing in the client |

## Left out

- Transport. HTTP and WebSocket plumbing are not modelled. This covers express, the REST endpoints (`/`, `/api/health`, `/api/streams`), `server.listen`, OkHttp and `connect()`, and the socket listener callbacks for open, failure, closing and closed. Only the effects a handler has on the registries and the frames it writes are modelled.
- Environment and clock. `getBaseUrl()` is the constant `BaseUrl`, as when neither PUBLIC_URL nor PORT is set. `createdAt` is left out because it is informational only.
- Randomness. `uuidv4()` is a parameter: the connection id of `Accept` and the `freshStreamId` of a message.
- Reference keys. A JavaScript Map compares object and array keys by reference. `register-viewer` therefore never finds such a key, and the model says so. `register-streamer`, though, stores under a structurally equal key in the model, where the source would add a second entry.
- Sends to the sender's own socket. These are written unconditionally, as in the source. Whether a closing socket delivers them is not modelled.
- Numbers. They are unbounded integers; floating point is not part of this model. JSON.parse rounds integers beyond 2^53 to the nearest double, and the model does not.
- Key order. A JavaScript object lists array-index keys (such as "1") first, in ascending order, whatever their order in the text. The model keeps text order. `JsExact` names the values neither this nor rounding affects.
- EndToEnd.OfferReachesViewer: it requires `JsExact(offer)`, because the mediator re-parses the text Gson wrote, and JSON.parse would reorder index keys and round large integers.
- EndToEnd.AnswerReachesStreamer: it starts from the object the mediator's JSON.parse produced, not from the viewer's text. Reordering and rounding in that parse are not modelled.
- MediatorFindings.GuardedStepKeepsConsistent: `Consistent` does not include the converse of its viewer clause, that a viewer bound to an existing stream is listed in it. Both machines break that converse (`OrphanedViewerLeftAsWritten`). The guarded policy instead sends viewer-left only for listed viewers (`GuardedViewerLeftOnlyListed`).
- Process exit. A transition that throws ends the run. The restart, and the sockets Node closes as it exits, are not modelled.
- Log lines. Only their template literals are modelled, because these can throw; what they print is not.
- Escaping. `Serialize` escapes only quotes and backslashes; control characters and `\u` escapes are not modelled.
- Gson.Detail: stands for `e.message`. It gives the exception's name or the element kind, not the exact text Gson and the JVM produce.
- Listener exceptions. A listener callback that throws would reach the catch block in the source; callbacks are effects here and do not throw.
- The `ws.on('error')` handler. It only logs.
- Out of scope. The WebRTC engine wrappers (`WebRTCClient.kt`, `WebRTCClient.java`), the Android activities and the web client are not part of this model. Neither is the engine fact that `createOffer` first closes any earlier peer connection.
- Mediator.Wire: its contract states only that each frame is an object whose first member is its type. The members of each frame are stated by `MediatorProperties.WireConnected`, `WireRegistered`, `WireRelayed`, `WireViewerJoined`, `WireViewerLeft`, `WireError` and `WireStreamEnded`. The registered frame of a viewer, which has no embed URL, has no such lemma.

## Findings

| source | as written | input that shows it | evidently intended | confidence | as-written member | corrected member |
|---|---|---|---|---|---|---|
| signaling-server/server.js:220-239 | handleStopStream deletes the stream the caller is bound to, without checking that the caller is its streamer | viewer "V" of stream "cam" sends `{"type":"stop-stream"}` while streamer "S" is live | only a stream's own streamer ends it | medium; not executed | MediatorFindings.ViewerEndsStreamAsWritten | MediatorFindings.GuardedOnlyOwnerEndsStream |
| signaling-server/server.js:241-248 | a streamer whose key was re-registered by another connection still deletes that key's stream when it disconnects | "S" owns "cam", "T" sends register-streamer for "cam", then "S" closes | a disconnect ends only the closing streamer's own stream, so a re-registration overwrites cleanly | low; not executed | MediatorFindings.DisplacedStreamerEndsTakeoverAsWritten | MediatorFindings.GuardedOnlyOwnerEndsStream |
| signaling-server/server.js:145-161 | register-viewer from a connection that is already a viewer adds it to the new stream without removing it from the old one | "V" views "cam" and sends register-viewer for "cam2" | every listed viewer is a connection registered as a viewer of that very stream | medium; not executed | MediatorFindings.ViewerInTwoStreamsAsWritten | MediatorFindings.GuardedStepKeepsConsistent |
| signaling-server/server.js:121-143 | a stream id that is an object with its own `toString` member is bound before the log line at :135 throws on it, and the message handler answers with an error. When the streamer closes, the close handler at :70-72 reaches the log line at :238, which throws where nothing catches it | "T" sends `{"type":"register-streamer","streamId":{"toString":1}}`, then closes | a stream id that cannot be printed is refused, and no peer can end the process | high; not executed | MediatorFindings.UnprintableKeyCrashesAsWritten | MediatorFindings.GuardedNeverCrashes |
| signaling-server/server.js:249-263 | a viewer's close notifies whoever now streams under the viewer's bound key, even when that stream never listed the viewer | "S" stops "cam" watched by "V", "T" registers "cam", then "V" closes | viewer-left goes only to the streamer of a stream the viewer was in | medium; not executed | MediatorFindings.OrphanedViewerLeftAsWritten | MediatorFindings.GuardedViewerLeftOnlyListed |
