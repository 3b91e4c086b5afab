/** SignalingClient.java: the same client for the dome streamer app. Its
    stream id is set from outside (setStreamId) and sent only when known, and
    it swallows any failure while reading an `answer` member. */
module JavaClient {
  import opened Json
  import opened Gson
  import opened ClientCore

  /** setStreamId. */
  function SetStreamId(st: ClientState, id: Option<string>): (st': ClientState)
    ensures st'.streamId == id
    ensures st'.clientId == st.clientId && st'.socketOpen == st.socketOpen
  {
    st.(streamId := id)
  }

  /** registerAsStreamer's envelope: `streamId` is present exactly when the
      client knows one. */
  function RegisterMessage(st: ClientState): (j: Json)
    ensures Field(j, "type") == Some(JStr("register-streamer"))
    ensures Field(j, "streamId") == (if st.streamId.Some? then Some(JStr(st.streamId.value)) else None)
  {
    if st.streamId.Some? then
      var fields := [("type", JStr("register-streamer")), ("streamId", JStr(st.streamId.value))];
      GetDistinct(fields, 0);
      GetDistinct(fields, 1);
      JObj(fields)
    else
      var fields := [("type", JStr("register-streamer"))];
      GetDistinct(fields, 0);
      JObj(fields)
  }

  /** The guarded `answer` read: an object gives its JSON text, anything else
      getAsString; an exception leaves the answer null. */
  function AnswerText(member: Option<Json>): (r: Result<Option<string>, Exception>)
    ensures r.Success?
    ensures member.None? ==> r.value.None?
    ensures member.Some? && member.value.JObj? ==> r.value == Some(Serialize(member.value))
    ensures member.Some? && !member.value.JObj? ==>
              r.value == (if AsString(member.value).Success? then Some(AsString(member.value).value) else None)
  {
    match member
    case None => Success(None)
    case Some(j) =>
      if j.JObj? then Success(Some(Serialize(j)))
      else
        match AsString(j)
        case Success(s) => Success(Some(s))
        case Failure(_) => Success(None)
  }

  /** handleMessage: parse, return early without a type, dispatch, and turn
      any exception into one onError. The last ensures only unfolds the body for the
      end-to-end lemmas; the guarantees are the ones before it. */
  function HandleMessage(st: ClientState, text: Text): (r: Reaction)
    ensures r.state.socketOpen == st.socketOpen
    ensures |Callbacks(r.effects)| <= 1
    ensures Sent(r.effects) == [] || (st.socketOpen && Sent(r.effects) == [RegisterMessage(st)])
    ensures ReadObject(text).Failure? ==> r == Failed(st, ReadObject(text).error)
    ensures ReadObject(text).Success? ==>
              r == Dispatch(st, ReadObject(text).value, RegisterMessage(st),
                            AnswerText(Get(ReadObject(text).value, "answer")))
  {
    match ReadObject(text)
    case Failure(e) => Failed(st, e)
    case Success(fields) => Dispatch(st, fields, RegisterMessage(st), AnswerText(Get(fields, "answer")))
  }
}
