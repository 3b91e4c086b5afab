/** What handleMessage, disconnect and the two client variants promise, stated
    over every frame of the relevant shape. */
module ClientProperties {
  import opened Json
  import opened Gson
  import opened ClientCore
  import KotlinClient
  import JavaClient

  /** A frame whose `type` member is the string `ty`. */
  predicate Typed(fields: seq<(string, Json)>, ty: string)
  {
    Get(fields, "type") == Some(JStr(ty))
  }

  /** A member that is absent or a string: the shapes the mediator sends. */
  predicate AbsentOrString(v: Option<Json>)
  {
    v.None? || v.value.JStr?
  }

  function Text(v: Option<Json>): string
    requires AbsentOrString(v) && v.Some?
  {
    v.value.s
  }

  // ----- connected -----

  /** A greeting with an id stores it, tells the listener, and then registers
      as a streamer over the socket when there is one. */
  lemma ConnectedRegisters(st: ClientState, fields: seq<(string, Json)>, register: Json,
                           answer: Result<Option<string>, Exception>, id: string)
    requires Typed(fields, "connected") && Get(fields, "clientId") == Some(JStr(id))
    ensures var r := Dispatch(st, fields, register, answer);
            && r.state == st.(clientId := Some(id))
            && Callbacks(r.effects) == [OnConnected(id)]
            && Sent(r.effects) == (if st.socketOpen then [register] else [])
            && r.effects[0] == Fire(OnConnected(id))
  {
  }

  /** A greeting without an id forgets any previous id and does nothing else. */
  lemma ConnectedWithoutIdForgets(st: ClientState, fields: seq<(string, Json)>, register: Json,
                                  answer: Result<Option<string>, Exception>)
    requires Typed(fields, "connected") && Get(fields, "clientId").None?
    ensures var r := Dispatch(st, fields, register, answer);
            r.state == st.(clientId := None) && Callbacks(r.effects) == [] && Sent(r.effects) == []
  {
  }

  // ----- registered -----

  /** `registered` overwrites the stream id with whatever the frame carries,
      and fires onStreamRegistered exactly when both the id and the embed URL
      are present. */
  lemma RegisteredAssigns(st: ClientState, fields: seq<(string, Json)>, register: Json,
                          answer: Result<Option<string>, Exception>)
    requires Typed(fields, "registered")
    requires AbsentOrString(Get(fields, "streamId")) && AbsentOrString(Get(fields, "embedUrl"))
    ensures var r := Dispatch(st, fields, register, answer);
            var sid := Get(fields, "streamId");
            var url := Get(fields, "embedUrl");
            && r.state == st.(streamId := if sid.Some? then Some(Text(sid)) else None)
            && Sent(r.effects) == []
            && Callbacks(r.effects) == (if sid.Some? && url.Some?
                                        then [OnStreamRegistered(Text(sid), Text(url))] else [])
  {
  }

  /** The stream id is assigned before `embedUrl` is read, so an embed URL
      that cannot be read as a string still leaves the new id in place. */
  lemma RegisteredKeepsIdOnBadUrl(st: ClientState, fields: seq<(string, Json)>, register: Json,
                                  answer: Result<Option<string>, Exception>, sid: string)
    requires Typed(fields, "registered")
    requires Get(fields, "streamId") == Some(JStr(sid)) && Get(fields, "embedUrl") == Some(JNull)
    ensures var r := Dispatch(st, fields, register, answer);
            && r.state == st.(streamId := Some(sid))
            && Callbacks(r.effects) == [OnError(ParseFailurePrefix + "JsonNull")]
  {
  }

  // ----- callback-only cases -----

  /** viewer-joined fires onViewerJoined exactly when the frame names a viewer. */
  lemma ViewerJoinedNotifies(st: ClientState, fields: seq<(string, Json)>, register: Json,
                             answer: Result<Option<string>, Exception>)
    requires Typed(fields, "viewer-joined") && AbsentOrString(Get(fields, "viewerId"))
    ensures var r := Dispatch(st, fields, register, answer);
            var v := Get(fields, "viewerId");
            && r.state == st && Sent(r.effects) == []
            && Callbacks(r.effects) == (if v.Some? then [OnViewerJoined(Text(v))] else [])
  {
  }

  /** An answer the variant could read fires onAnswer exactly when a sender is
      named; one it could not read is one onError. */
  lemma AnswerNotifies(st: ClientState, fields: seq<(string, Json)>, register: Json,
                       answer: Result<Option<string>, Exception>)
    requires Typed(fields, "answer") && AbsentOrString(Get(fields, "senderId"))
    ensures var r := Dispatch(st, fields, register, answer);
            var sender := Get(fields, "senderId");
            && r.state == st && Sent(r.effects) == []
            && (answer.Success? ==>
                  Callbacks(r.effects) == (if answer.value.Some? && sender.Some?
                                           then [OnAnswer(answer.value.value, Text(sender))] else []))
            && (answer.Failure? ==> Callbacks(r.effects) == [OnError(ParseFailurePrefix + Detail(answer.error))])
  {
  }

  /** ice-candidate passes on the candidate's JSON text (a string candidate
      keeps its quotes), and only together with a sender. */
  lemma IceCandidateNotifies(st: ClientState, fields: seq<(string, Json)>, register: Json,
                             answer: Result<Option<string>, Exception>)
    requires Typed(fields, "ice-candidate") && AbsentOrString(Get(fields, "senderId"))
    ensures var r := Dispatch(st, fields, register, answer);
            var candidate := Get(fields, "candidate");
            var sender := Get(fields, "senderId");
            && r.state == st && Sent(r.effects) == []
            && Callbacks(r.effects) == (if candidate.Some? && sender.Some?
                                        then [OnIceCandidate(Serialize(candidate.value), Text(sender))] else [])
  {
  }

  /** A string candidate reaches the listener wrapped in quotes. */
  lemma IceCandidateQuoted(st: ClientState, fields: seq<(string, Json)>, register: Json,
                           answer: Result<Option<string>, Exception>, c: string, sender: string)
    requires Typed(fields, "ice-candidate")
    requires Get(fields, "candidate") == Some(JStr(c)) && Get(fields, "senderId") == Some(JStr(sender))
    ensures var r := Dispatch(st, fields, register, answer);
            exists text :: Callbacks(r.effects) == [OnIceCandidate(text, sender)]
                           && |text| == |Escape(c)| + 2 && text[0] == '"' && text[|text| - 1] == '"'
  {
    IceCandidateNotifies(st, fields, register, answer);
    SerializeString(c);
    var text := Quote(c);
    assert Callbacks(Dispatch(st, fields, register, answer).effects) == [OnIceCandidate(text, sender)];
  }

  /** error always reaches the listener: its message, or "Unknown error". */
  lemma ErrorReported(st: ClientState, fields: seq<(string, Json)>, register: Json,
                      answer: Result<Option<string>, Exception>)
    requires Typed(fields, "error") && AbsentOrString(Get(fields, "message"))
    ensures var r := Dispatch(st, fields, register, answer);
            var m := Get(fields, "message");
            && r.state == st && Sent(r.effects) == []
            && Callbacks(r.effects) == [OnError(if m.Some? then Text(m) else UnknownError)]
  {
  }

  // ----- frames that do nothing -----

  /** A frame without a type, or with a type that names no case (the
      mediator's viewer-left and stream-ended among them), changes nothing. */
  lemma UnhandledIgnored(st: ClientState, fields: seq<(string, Json)>, register: Json,
                         answer: Result<Option<string>, Exception>)
    requires Get(fields, "type").None? ||
             (exists ty :: Typed(fields, ty) &&
                           ty !in {"connected", "registered", "viewer-joined", "answer", "ice-candidate", "error"})
    ensures Dispatch(st, fields, register, answer) == Reaction(st, [])
  {
  }

  /** A frame that is not one JSON object is reported as one onError and
      changes nothing, in both variants. */
  lemma ParseFailureReported(st: ClientState, text: Text)
    requires !(text.Doc? && text.value.JObj?)
    ensures var k := KotlinClient.HandleMessage(st, text);
            var j := JavaClient.HandleMessage(st, text);
            && k == j
            && k.state == st && Sent(k.effects) == [] && |Callbacks(k.effects)| == 1
            && Callbacks(k.effects)[0].OnError?
  {
  }

  // ----- the two variants -----

  /** The variants read an answer alike whenever the Kotlin reading succeeds. */
  lemma AnswerReadingsAgree(member: Option<Json>)
    requires KotlinClient.AnswerText(member).Success?
    ensures JavaClient.AnswerText(member) == KotlinClient.AnswerText(member)
  {
  }

  /** A JSON object or a string answer is delivered by both variants: the
      object as its JSON text, the string as it is. */
  lemma AnswerObjectOrString(st: ClientState, fields: seq<(string, Json)>, sender: string)
    requires Typed(fields, "answer") && Get(fields, "senderId") == Some(JStr(sender))
    requires Get(fields, "answer").Some? && (Get(fields, "answer").value.JObj? || Get(fields, "answer").value.JStr?)
    ensures var a := Get(fields, "answer").value;
            var text := if a.JObj? then Serialize(a) else a.s;
            && Callbacks(KotlinClient.HandleMessage(st, Doc(JObj(fields))).effects) == [OnAnswer(text, sender)]
            && Callbacks(JavaClient.HandleMessage(st, Doc(JObj(fields))).effects) == [OnAnswer(text, sender)]
  {
    var a := Get(fields, "answer").value;
    AnswerNotifies(st, fields, KotlinClient.RegisterMessage(), KotlinClient.AnswerText(Some(a)));
    AnswerNotifies(st, fields, JavaClient.RegisterMessage(st), JavaClient.AnswerText(Some(a)));
  }

  /** Once the Java client knows the stream id the Kotlin client hard-codes,
      the two react identically to every frame, except an answer the Kotlin
      reading fails on. */
  lemma VariantsAgree(st: ClientState, text: Text)
    requires st.streamId == Some(KotlinClient.FixedStreamId)
    requires text.Doc? && text.value.JObj? ==> KotlinClient.AnswerText(Get(text.value.fields, "answer")).Success?
    ensures KotlinClient.HandleMessage(st, text) == JavaClient.HandleMessage(st, text)
  {
    assert JavaClient.RegisterMessage(st) == KotlinClient.RegisterMessage();
    if text.Doc? && text.value.JObj? {
      AnswerReadingsAgree(Get(text.value.fields, "answer"));
    }
  }

  const NullAnswer := [("type", JStr("answer")), ("answer", JNull), ("senderId", JStr("S"))]

  /** A null answer: the Kotlin client's fallback read throws into the catch
      block and reports a parse failure; the Java client swallows it and
      stays silent. */
  lemma NullAnswerDiffers(st: ClientState)
    ensures Callbacks(KotlinClient.HandleMessage(st, Doc(JObj(NullAnswer))).effects)
            == [OnError(ParseFailurePrefix + "JsonNull")]
    ensures Callbacks(JavaClient.HandleMessage(st, Doc(JObj(NullAnswer))).effects) == []
  {
    NullAnswerKotlin(st);
    NullAnswerJava(st);
  }

  lemma NullAnswerMembers()
    ensures ReadObject(Doc(JObj(NullAnswer))) == Success(NullAnswer)
    ensures MemberString(NullAnswer, "type") == Success(Some("answer"))
    ensures Get(NullAnswer, "answer") == Some(JNull)
    ensures MemberString(NullAnswer, "senderId") == Success(Some("S"))
  {
    assert DistinctKeys(NullAnswer);
    GetDistinct(NullAnswer, 0);
    GetDistinct(NullAnswer, 1);
    GetDistinct(NullAnswer, 2);
  }

  lemma NullAnswerKotlin(st: ClientState)
    ensures Callbacks(KotlinClient.HandleMessage(st, Doc(JObj(NullAnswer))).effects)
            == [OnError(ParseFailurePrefix + "JsonNull")]
  {
    NullAnswerMembers();
    var e := UnsupportedOperation("JsonNull");
    assert KotlinClient.AnswerText(Some(JNull)) == Failure(e);
    var r := Dispatch(st, NullAnswer, KotlinClient.RegisterMessage(), Failure(e));
    assert r == Notify(st, AnswerCallback(NullAnswer, Failure(e)));
    assert AnswerCallback(NullAnswer, Failure(e)) == Failure(e);
    assert Detail(e) == "JsonNull";
  }

  lemma NullAnswerJava(st: ClientState)
    ensures Callbacks(JavaClient.HandleMessage(st, Doc(JObj(NullAnswer))).effects) == []
  {
    NullAnswerMembers();
    assert JavaClient.AnswerText(Some(JNull)) == Success(None);
    var r := Dispatch(st, NullAnswer, JavaClient.RegisterMessage(st), Success(None));
    assert r == Notify(st, AnswerCallback(NullAnswer, Success(None)));
    assert AnswerCallback(NullAnswer, Success(None)) == Success(None);
  }

  /** On a greeting, the Kotlin client always asks for "dome-camera"; the Java
      client, until setStreamId is called, asks for no stream id at all, so
      the mediator draws a fresh one. */
  lemma RegistrationRequestsDiffer(st: ClientState, fields: seq<(string, Json)>, id: string)
    requires st.socketOpen && st.streamId.None?
    requires Typed(fields, "connected") && Get(fields, "clientId") == Some(JStr(id))
    ensures var k := Sent(KotlinClient.HandleMessage(st, Doc(JObj(fields))).effects);
            var j := Sent(JavaClient.HandleMessage(st, Doc(JObj(fields))).effects);
            && |k| == 1 && Field(k[0], "streamId") == Some(JStr(KotlinClient.FixedStreamId))
            && |j| == 1 && Field(j[0], "streamId").None?
  {
    var kotlin := Dispatch(st, fields, KotlinClient.RegisterMessage(), KotlinClient.AnswerText(Get(fields, "answer")));
    var java := Dispatch(st, fields, JavaClient.RegisterMessage(st), JavaClient.AnswerText(Get(fields, "answer")));
    assert KotlinClient.HandleMessage(st, Doc(JObj(fields))) == kotlin;
    assert JavaClient.HandleMessage(st, Doc(JObj(fields))) == java;
    ConnectedRegisters(st, fields, KotlinClient.RegisterMessage(), KotlinClient.AnswerText(Get(fields, "answer")), id);
    ConnectedRegisters(st, fields, JavaClient.RegisterMessage(st), JavaClient.AnswerText(Get(fields, "answer")), id);
    assert Sent(kotlin.effects) == [KotlinClient.RegisterMessage()];
    assert Sent(java.effects) == [JavaClient.RegisterMessage(st)];
  }

  // ----- disconnect -----

  /** A second disconnect finds no socket and does nothing. */
  lemma DisconnectTwiceSilent(st: ClientState)
    ensures Disconnect(Disconnect(st).state).effects == []
    ensures Disconnect(Disconnect(st).state).state == Disconnect(st).state
  {
  }

  /** Once disconnected, no send reaches the wire. */
  lemma NothingSentAfterDisconnect(st: ClientState, offer: Text, body: string, targetId: string)
    ensures var d := Disconnect(st).state;
            && (SendOffer(d, offer, targetId).Success? ==> SendOffer(d, offer, targetId).value == [])
            && SendAnswer(d, body, targetId) == []
            && SendIceCandidate(d, body, targetId) == []
  {
  }
}
