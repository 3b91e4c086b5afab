/** SignalingClient.kt: the streamer's signalling client. It registers under a
    fixed stream id, and reads an `answer` member as an object first and as a
    string when that fails, letting a failure of the second read escape to the
    catch block of handleMessage. */
module KotlinClient {
  import opened Json
  import opened Gson
  import opened ClientCore

  /** The stream id registerAsStreamer always asks for, so that the embed URL
      stays the same across sessions. */
  const FixedStreamId := "dome-camera"

  /** registerAsStreamer's envelope. */
  function RegisterMessage(): (j: Json)
    ensures Field(j, "type") == Some(JStr("register-streamer"))
    ensures Field(j, "streamId") == Some(JStr(FixedStreamId))
  {
    var fields := [("type", JStr("register-streamer")), ("streamId", JStr(FixedStreamId))];
    GetDistinct(fields, 0);
    GetDistinct(fields, 1);
    JObj(fields)
  }

  /** `try { answer?.asJsonObject?.toString() } catch { answer?.asString }`. */
  function AnswerText(member: Option<Json>): (r: Result<Option<string>, Exception>)
    ensures r.Success? <==> member.None? || member.value.JObj? || AsString(member.value).Success?
    ensures member.None? ==> r == Success(None)
    ensures member.Some? && r.Success? ==> r.value.Some?
    ensures member.Some? && member.value.JObj? ==> r == Success(Some(Serialize(member.value)))
    ensures member.Some? && member.value.JStr? ==> r == Success(Some(member.value.s))
    ensures r.Failure? ==> r.error == AsString(member.value).error
  {
    match member
    case None => Success(None)
    case Some(j) =>
      if j.JObj? then Success(Some(Serialize(j)))
      else
        match AsString(j)
        case Success(s) => Success(Some(s))
        case Failure(e) => Failure(e)
  }

  /** handleMessage: parse, dispatch on `type`, and turn any exception into
      one onError. The last ensures only unfolds the body for the
      end-to-end lemmas; the guarantees are the ones before it. */
  function HandleMessage(st: ClientState, text: Text): (r: Reaction)
    ensures r.state.socketOpen == st.socketOpen
    ensures |Callbacks(r.effects)| <= 1
    ensures Sent(r.effects) == [] || (st.socketOpen && Sent(r.effects) == [RegisterMessage()])
    ensures ReadObject(text).Failure? ==> r == Failed(st, ReadObject(text).error)
    ensures ReadObject(text).Success? ==>
              r == Dispatch(st, ReadObject(text).value, RegisterMessage(),
                            AnswerText(Get(ReadObject(text).value, "answer")))
  {
    match ReadObject(text)
    case Failure(e) => Failed(st, e)
    case Success(fields) => Dispatch(st, fields, RegisterMessage(), AnswerText(Get(fields, "answer")))
  }
}
