/** What the two Android SignalingClient variants (SignalingClient.kt and
    SignalingClient.java) share: the listener callbacks, the little state they
    keep, the branches of handleMessage they write identically, the outbound
    envelopes, send() and disconnect(). The branches where they differ live in
    KotlinClient and JavaClient. */
module ClientCore {
  import opened Json
  import opened Gson

  /** SignalingClient.Listener. */
  datatype Callback =
    | OnConnected(clientId: string)
    | OnStreamRegistered(streamId: string, embedUrl: string)
    | OnViewerJoined(viewerId: string)
    | OnAnswer(answer: string, senderId: string)
    | OnIceCandidate(candidate: string, senderId: string)
    | OnError(error: string)

  /** What one call does to the outside: a listener callback, a frame written to
      the socket, or the socket closed. */
  datatype Effect =
    | Fire(callback: Callback)
    | Transmit(message: Json)
    | CloseSocket(code: int, reason: string)

  /** The fields `clientId` and `streamId`, and whether `webSocket` is non-null. */
  datatype ClientState = ClientState(clientId: Option<string>, streamId: Option<string>, socketOpen: bool)

  datatype Reaction = Reaction(state: ClientState, effects: seq<Effect>)

  const ParseFailurePrefix := "Failed to parse message: "
  const UnknownError := "Unknown error"
  const NormalClosure := 1000
  const ClosingReason := "Closing connection"

  /** The listener callbacks among the effects, in order. */
  function Callbacks(effects: seq<Effect>): (r: seq<Callback>)
    ensures |r| <= |effects|
    ensures forall cb :: cb in r <==> Fire(cb) in effects
  {
    if |effects| == 0 then []
    else (if effects[0].Fire? then [effects[0].callback] else []) + Callbacks(effects[1..])
  }

  /** The frames written to the socket, in order. */
  function Sent(effects: seq<Effect>): (r: seq<Json>)
    ensures |r| <= |effects|
    ensures forall m :: m in r <==> Transmit(m) in effects
  {
    if |effects| == 0 then []
    else (if effects[0].Transmit? then [effects[0].message] else []) + Sent(effects[1..])
  }

  /** The catch block of handleMessage: one onError, state as it was at the throw. */
  function Failed(st: ClientState, e: Exception): (r: Reaction)
    ensures r.state == st
    ensures Callbacks(r.effects) == [OnError(ParseFailurePrefix + Detail(e))] && Sent(r.effects) == []
  {
    var r := Reaction(st, [Fire(OnError(ParseFailurePrefix + Detail(e)))]);
    assert Callbacks(r.effects[1..]) == [];
    r
  }

  /** send(): `webSocket?.send(message)`, a no-op without a socket. */
  function Send(st: ClientState, message: Json): (r: seq<Effect>)
    ensures st.socketOpen ==> Sent(r) == [message]
    ensures !st.socketOpen ==> r == []
    ensures Callbacks(r) == []
  {
    var r := if st.socketOpen then [Transmit(message)] else [];
    assert |r| > 0 ==> r[1..] == [];
    r
  }

  // ----- the branches of handleMessage both variants share -----

  /** `connected`: remember the id (even a null one); with an id, tell the
      listener and register as a streamer with the variant's envelope. */
  function HandleConnected(st: ClientState, fields: seq<(string, Json)>, register: Json): (r: Reaction)
    ensures MemberString(fields, "clientId").Failure? ==> r == Failed(st, MemberString(fields, "clientId").error)
    ensures MemberString(fields, "clientId").Success? ==>
              var id := MemberString(fields, "clientId").value;
              && r.state == st.(clientId := id)
              && Callbacks(r.effects) == (if id.Some? then [OnConnected(id.value)] else [])
              && Sent(r.effects) == (if id.Some? && st.socketOpen then [register] else [])
              && (id.Some? ==> r.effects[0] == Fire(OnConnected(id.value)))
  {
    match MemberString(fields, "clientId")
    case Failure(e) => Failed(st, e)
    case Success(id) =>
      var st' := st.(clientId := id);
      if id.Some? then
        var r := Reaction(st', [Fire(OnConnected(id.value))] + Send(st', register));
        assert r.effects[1..] == Send(st', register);
        r
      else Reaction(st', [])
  }

  /** `registered`: streamId is overwritten by whatever the message holds, null
      included, before embedUrl is read; the listener hears of it only when an
      embedUrl came too. */
  function HandleRegistered(st: ClientState, fields: seq<(string, Json)>): (r: Reaction)
    ensures Sent(r.effects) == []
    ensures MemberString(fields, "streamId").Failure? ==> r == Failed(st, MemberString(fields, "streamId").error)
    ensures MemberString(fields, "streamId").Success? ==>
              var sid := MemberString(fields, "streamId").value;
              var url := MemberString(fields, "embedUrl");
              && r.state == st.(streamId := sid)
              && (url.Failure? ==> Callbacks(r.effects) == [OnError(ParseFailurePrefix + Detail(url.error))])
              && (url.Success? ==> Callbacks(r.effects) == (if sid.Some? && url.value.Some?
                                                             then [OnStreamRegistered(sid.value, url.value.value)] else []))
  {
    match MemberString(fields, "streamId")
    case Failure(e) => Failed(st, e)
    case Success(sid) =>
      var st' := st.(streamId := sid);
      match MemberString(fields, "embedUrl")
      case Failure(e) => Failed(st', e)
      case Success(url) =>
        if sid.Some? && url.Some? then
          var r := Reaction(st', [Fire(OnStreamRegistered(sid.value, url.value))]);
          assert r.effects[1..] == [];
          r
        else Reaction(st', [])
  }

  /** The shape of the callback-only branches: a callback from a decoded result,
      or the error of the member read that threw. */
  function Notify(st: ClientState, cb: Result<Option<Callback>, Exception>): (r: Reaction)
    ensures r.state == st
    ensures cb.Success? ==> Callbacks(r.effects) == (if cb.value.Some? then [cb.value.value] else [])
    ensures cb.Failure? ==> r == Failed(st, cb.error)
    ensures Sent(r.effects) == []
  {
    match cb
    case Failure(e) => Failed(st, e)
    case Success(None) => Reaction(st, [])
    case Success(Some(c)) =>
      var r := Reaction(st, [Fire(c)]);
      assert r.effects[1..] == [];
      r
  }

  function ViewerJoinedCallback(fields: seq<(string, Json)>): Result<Option<Callback>, Exception>
  {
    match MemberString(fields, "viewerId")
    case Failure(e) => Failure(e)
    case Success(v) => Success(if v.Some? then Some(OnViewerJoined(v.value)) else None)
  }

  /** `answer`, given the variant's reading of the answer member: fires only
      when both the answer and the sender are present. */
  function AnswerCallback(fields: seq<(string, Json)>, answer: Result<Option<string>, Exception>)
    : Result<Option<Callback>, Exception>
  {
    match answer
    case Failure(e) => Failure(e)
    case Success(a) =>
      match MemberString(fields, "senderId")
      case Failure(e) => Failure(e)
      case Success(sender) => Success(if a.Some? && sender.Some? then Some(OnAnswer(a.value, sender.value)) else None)
  }

  /** `ice-candidate`: the candidate member's toString() (its JSON text, so a
      string candidate arrives quoted), fired only with a sender. */
  function IceCandidateCallback(fields: seq<(string, Json)>): Result<Option<Callback>, Exception>
  {
    var candidate := Get(fields, "candidate");
    match MemberString(fields, "senderId")
    case Failure(e) => Failure(e)
    case Success(sender) =>
      Success(if candidate.Some? && sender.Some? then Some(OnIceCandidate(Serialize(candidate.value), sender.value)) else None)
  }

  /** `error`: the message, or "Unknown error" when there is none. */
  function ErrorCallback(fields: seq<(string, Json)>): Result<Option<Callback>, Exception>
  {
    match MemberString(fields, "message")
    case Failure(e) => Failure(e)
    case Success(m) => Success(Some(OnError(if m.Some? then m.value else UnknownError)))
  }

  /** The switch on `type` once the frame parsed to an object, given the
      variant's registration envelope and its reading of the `answer` member.
      A type that is absent, or names no case, does nothing. */
  function Dispatch(st: ClientState, fields: seq<(string, Json)>, register: Json,
                    answer: Result<Option<string>, Exception>): (r: Reaction)
    ensures r.state.socketOpen == st.socketOpen
    ensures |Callbacks(r.effects)| <= 1
    ensures Sent(r.effects) == [] || (st.socketOpen && Sent(r.effects) == [register])
    ensures r.state.clientId != st.clientId || Sent(r.effects) != [] ==>
              MemberString(fields, "type") == Success(Some("connected"))
    ensures r.state.streamId != st.streamId ==> MemberString(fields, "type") == Success(Some("registered"))
    ensures MemberString(fields, "type").Failure? ==> r == Failed(st, MemberString(fields, "type").error)
    ensures MemberString(fields, "type") == Success(None) ==> r == Reaction(st, [])
  {
    match MemberString(fields, "type")
    case Failure(e) => Failed(st, e)
    case Success(None) => Reaction(st, [])
    case Success(Some(ty)) =>
      if ty == "connected" then HandleConnected(st, fields, register)
      else if ty == "registered" then HandleRegistered(st, fields)
      else if ty == "viewer-joined" then Notify(st, ViewerJoinedCallback(fields))
      else if ty == "answer" then Notify(st, AnswerCallback(fields, answer))
      else if ty == "ice-candidate" then Notify(st, IceCandidateCallback(fields))
      else if ty == "error" then Notify(st, ErrorCallback(fields))
      else Reaction(st, [])
  }

  // ----- outbound envelopes -----

  /** An envelope `{type, <payload key>: payload, targetId}`, as the three send
      functions build it with JsonObject. */
  function Envelope(ty: string, payloadKey: string, payload: Json, targetId: string): (j: Json)
    requires payloadKey != "type" && payloadKey != "targetId"
    ensures Field(j, "type") == Some(JStr(ty))
    ensures Field(j, payloadKey) == Some(payload)
    ensures Field(j, "targetId") == Some(JStr(targetId))
  {
    var fields := [("type", JStr(ty)), (payloadKey, payload), ("targetId", JStr(targetId))];
    GetDistinct(fields, 0);
    GetDistinct(fields, 1);
    GetDistinct(fields, 2);
    JObj(fields)
  }

  function OfferMessage(offer: Json, targetId: string): Json
  {
    Envelope("offer", "offer", offer, targetId)
  }

  function AnswerMessage(answer: string, targetId: string): Json
  {
    Envelope("answer", "answer", JStr(answer), targetId)
  }

  function IceCandidateMessage(candidate: string, targetId: string): Json
  {
    Envelope("ice-candidate", "candidate", JStr(candidate), targetId)
  }

  const StopStreamMessage := JObj([("type", JStr("stop-stream"))])

  /** sendOffer: the offer text is parsed and nested as a JSON object (a blank
      text parses to null, which JsonObject.add stores as JSON null); any other
      text throws JsonSyntaxException out of sendOffer. */
  function SendOffer(st: ClientState, offer: Text, targetId: string): (r: Result<seq<Effect>, Exception>)
    ensures r.Success? <==> offer.Blank? || (offer.Doc? && offer.value.JObj?)
    ensures r.Success? ==> Callbacks(r.value) == []
    ensures r.Success? && st.socketOpen ==>
              && |Sent(r.value)| == 1
              && Field(Sent(r.value)[0], "type") == Some(JStr("offer"))
              && Field(Sent(r.value)[0], "offer") == Some(if offer.Blank? then JNull else offer.value)
              && Field(Sent(r.value)[0], "targetId") == Some(JStr(targetId))
  {
    match offer
    case Blank => Success(Send(st, OfferMessage(JNull, targetId)))
    case Garbage => Failure(JsonSyntax)
    case Doc(j) => if j.JObj? then Success(Send(st, OfferMessage(j, targetId))) else Failure(JsonSyntax)
  }

  /** sendAnswer: the answer travels as a JSON string. */
  function SendAnswer(st: ClientState, answer: string, targetId: string): (r: seq<Effect>)
    ensures st.socketOpen ==>
              && |Sent(r)| == 1
              && Field(Sent(r)[0], "type") == Some(JStr("answer"))
              && Field(Sent(r)[0], "answer") == Some(JStr(answer))
              && Field(Sent(r)[0], "targetId") == Some(JStr(targetId))
    ensures !st.socketOpen ==> r == []
  {
    Send(st, AnswerMessage(answer, targetId))
  }

  /** sendIceCandidate: the candidate travels as a JSON string. */
  function SendIceCandidate(st: ClientState, candidate: string, targetId: string): (r: seq<Effect>)
    ensures st.socketOpen ==>
              && |Sent(r)| == 1
              && Field(Sent(r)[0], "type") == Some(JStr("ice-candidate"))
              && Field(Sent(r)[0], "candidate") == Some(JStr(candidate))
              && Field(Sent(r)[0], "targetId") == Some(JStr(targetId))
    ensures !st.socketOpen ==> r == []
  {
    Send(st, IceCandidateMessage(candidate, targetId))
  }

  /** disconnect(): stop-stream if a stream id is known (sent only while a
      socket exists), then close the socket and drop it. */
  function Disconnect(st: ClientState): (r: Reaction)
    ensures !r.state.socketOpen
    ensures r.state.clientId == st.clientId && r.state.streamId == st.streamId
    ensures Sent(r.effects) == (if st.streamId.Some? && st.socketOpen then [StopStreamMessage] else [])
    ensures CloseSocket(NormalClosure, ClosingReason) in r.effects <==> st.socketOpen
    ensures Callbacks(r.effects) == []
    ensures forall i, j :: 0 <= i < j < |r.effects| && r.effects[i].CloseSocket? ==> !r.effects[j].Transmit?
  {
    var stop := if st.streamId.Some? then Send(st, StopStreamMessage) else [];
    var close := if st.socketOpen then [CloseSocket(NormalClosure, ClosingReason)] else [];
    SentAppend(stop, close);
    CallbacksAppend(stop, close);
    Reaction(st.(socketOpen := false), stop + close)
  }

  lemma {:induction false} SentAppend(a: seq<Effect>, b: seq<Effect>)
    ensures Sent(a + b) == Sent(a) + Sent(b)
  {
    if |a| == 0 {
      assert a + b == b;
    } else {
      assert (a + b)[1..] == a[1..] + b;
      SentAppend(a[1..], b);
    }
  }

  lemma {:induction false} CallbacksAppend(a: seq<Effect>, b: seq<Effect>)
    ensures Callbacks(a + b) == Callbacks(a) + Callbacks(b)
  {
    if |a| == 0 {
      assert a + b == b;
    } else {
      assert (a + b)[1..] == a[1..] + b;
      CallbacksAppend(a[1..], b);
    }
  }
}
