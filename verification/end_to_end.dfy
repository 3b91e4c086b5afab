/** The mediator and the Kotlin streamer client together: frames one side
    writes, as JSON.stringify or JsonObject.toString lays them out, are the
    frames the other side parses. */
module EndToEnd {
  import opened Json
  import opened Mediator
  import ClientCore
  import KotlinClient
  import ClientProperties
  import opened MediatorProperties

  /** The key the Kotlin client's stream is registered under. */
  const DomeCamera := JStr(KotlinClient.FixedStreamId)

  // ----- registration -----

  /** The greeting makes the client send its registration request. */
  lemma GreetingTriggersRegistration(st: ClientCore.ClientState, c: ClientId)
    requires st.socketOpen
    ensures var k := KotlinClient.HandleMessage(st, Doc(Wire(Connected(c))));
            && k.state == st.(clientId := Some(c))
            && ClientCore.Callbacks(k.effects) == [ClientCore.OnConnected(c)]
            && ClientCore.Sent(k.effects) == [KotlinClient.RegisterMessage()]
  {
    WireConnected(c);
  }

  /** The mediator registers that request under "dome-camera" and answers with
      the embed URL of that key. Under the guarded policy the connection must
      not have registered before. */
  lemma ServerRegistersFixedId(p: Policy, s: State, c: ClientId, uuid: string)
    requires c in s.clients && (p.AsWritten? || s.clients[c].role.None?)
    ensures var t := Step(p, s, Message(c, Doc(KotlinClient.RegisterMessage()), uuid));
            && t.state.streams[DomeCamera] == Stream(c, [])
            && t.state.clients[c] == Client(Some(Streamer), Some(DomeCamera))
            && t.out == [Out(c, Registered(Streamer, DomeCamera, EmbedUrl(DomeCamera)))]
  {
  }

  /** The mediator's answer reaches the listener with the fixed id and a
      viewer URL that names it. */
  lemma RegistrationReachesListener(st: ClientCore.ClientState)
    ensures var k := KotlinClient.HandleMessage(st, Doc(Wire(Registered(Streamer, DomeCamera, EmbedUrl(DomeCamera)))));
            && k.state == st.(streamId := Some(KotlinClient.FixedStreamId))
            && ClientCore.Callbacks(k.effects)
               == [ClientCore.OnStreamRegistered(KotlinClient.FixedStreamId, EmbedPrefix + KotlinClient.FixedStreamId)]
  {
    WireRegistered(Streamer, DomeCamera, EmbedPrefix + KotlinClient.FixedStreamId);
  }

  /** The whole exchange: greeting, request, registration, notification. */
  lemma StreamerRegistration(p: Policy, s: State, c: ClientId, uuid: string, st: ClientCore.ClientState)
    requires c in s.clients && (p.AsWritten? || s.clients[c].role.None?)
    requires st.socketOpen
    ensures var k1 := KotlinClient.HandleMessage(st, Doc(Wire(Connected(c))));
            var t := Step(p, s, Message(c, Doc(ClientCore.Sent(k1.effects)[0]), uuid));
            && |t.out| == 1 && t.out[0].to == c
            && var k2 := KotlinClient.HandleMessage(k1.state, Doc(Wire(t.out[0].msg)));
               && k2.state == ClientCore.ClientState(Some(c), Some(KotlinClient.FixedStreamId), true)
               && ClientCore.Callbacks(k2.effects)
                  == [ClientCore.OnStreamRegistered(KotlinClient.FixedStreamId, EmbedPrefix + KotlinClient.FixedStreamId)]
  {
    var k1 := KotlinClient.HandleMessage(st, Doc(Wire(Connected(c))));
    GreetingTriggersRegistration(st, c);
    assert ClientCore.Sent(k1.effects)[0] == KotlinClient.RegisterMessage();
    var t := Step(p, s, Message(c, Doc(KotlinClient.RegisterMessage()), uuid));
    ServerRegistersFixedId(p, s, c, uuid);
    assert t.out[0].msg == Registered(Streamer, DomeCamera, EmbedUrl(DomeCamera));
    var k2 := KotlinClient.HandleMessage(k1.state, Doc(Wire(Registered(Streamer, DomeCamera, EmbedUrl(DomeCamera)))));
    RegistrationReachesListener(k1.state);
    assert KotlinClient.HandleMessage(k1.state, Doc(Wire(t.out[0].msg))) == k2;
  }

  // ----- negotiation -----

  /** An offer the client sends reaches an OPEN viewer as the same JSON object,
      with the client as sender. The mediator parses the text Gson wrote, so
      the offer must be one JSON.parse reads back unchanged. */
  lemma OfferReachesViewer(p: Policy, s: State, c: ClientId, viewer: ClientId, offer: Json,
                           st: ClientCore.ClientState, uuid: string)
    requires c in s.clients && Reachable(s, viewer)
    requires st.socketOpen && offer.JObj? && JsExact(offer)
    ensures ClientCore.SendOffer(st, Doc(offer), viewer).Success?
    ensures var m := ClientCore.Sent(ClientCore.SendOffer(st, Doc(offer), viewer).value)[0];
            Step(p, s, Message(c, Doc(m), uuid)) == Transition(s, [Out(viewer, Relayed(Offer, Some(offer), c))])
  {
    var m := ClientCore.OfferMessage(offer, viewer);
    assert ClientCore.SendOffer(st, Doc(offer), viewer) == Success(ClientCore.Send(st, m));
    assert ClientCore.Sent(ClientCore.Send(st, m)) == [m];
    RelayForwards(p, s, c, m.fields, Offer, viewer, uuid);
  }

  /** An answer from a viewer, as a JSON object or a string, reaches the
      streamer's onAnswer with the viewer as sender. `fields` is the object
      JSON.parse made of the viewer's frame, and Gson keeps the member order
      JSON.stringify writes. */
  lemma AnswerReachesStreamer(p: Policy, s: State, v: ClientId, streamer: ClientId,
                              fields: seq<(string, Json)>, st: ClientCore.ClientState, uuid: string)
    requires v in s.clients && Reachable(s, streamer)
    requires Get(fields, "type") == Some(JStr("answer")) && Get(fields, "targetId") == Some(JStr(streamer))
    requires Get(fields, "answer").Some? && (Get(fields, "answer").value.JObj? || Get(fields, "answer").value.JStr?)
    ensures var a := Get(fields, "answer").value;
            var t := Step(p, s, Message(v, Doc(JObj(fields)), uuid));
            && t.out == [Out(streamer, Relayed(Answer, Some(a), v))]
            && ClientCore.Callbacks(KotlinClient.HandleMessage(st, Doc(Wire(t.out[0].msg))).effects)
               == [ClientCore.OnAnswer(if a.JObj? then Serialize(a) else a.s, v)]
  {
    var a := Get(fields, "answer").value;
    RelayForwards(p, s, v, fields, Answer, streamer, uuid);
    WireRelayed(Answer, a, v);
    ClientProperties.AnswerObjectOrString(st, Wire(Relayed(Answer, Some(a), v)).fields, v);
  }

  /** A candidate one Android client sends as a string arrives at the other's
      listener as the JSON text of that string, quotes included. */
  lemma CandidateArrivesQuoted(p: Policy, s: State, c: ClientId, target: ClientId, candidate: string,
                               sender: ClientCore.ClientState, receiver: ClientCore.ClientState, uuid: string)
    requires c in s.clients && Reachable(s, target) && sender.socketOpen
    ensures var m := ClientCore.Sent(ClientCore.SendIceCandidate(sender, candidate, target))[0];
            var t := Step(p, s, Message(c, Doc(m), uuid));
            && t.out == [Out(target, Relayed(IceCandidate, Some(JStr(candidate)), c))]
            && ClientCore.Callbacks(KotlinClient.HandleMessage(receiver, Doc(Wire(t.out[0].msg))).effects)
               == [ClientCore.OnIceCandidate(Quote(candidate), c)]
  {
    var m := ClientCore.IceCandidateMessage(candidate, target);
    assert ClientCore.Sent(ClientCore.SendIceCandidate(sender, candidate, target)) == [m];
    RelayForwards(p, s, c, m.fields, IceCandidate, target, uuid);
    CandidateTextQuoted(receiver, candidate, c);
  }

  /** The receiving half: a relayed string candidate is handed to the
      listener as its JSON text. */
  lemma CandidateTextQuoted(receiver: ClientCore.ClientState, candidate: string, c: ClientId)
    ensures ClientCore.Callbacks(KotlinClient.HandleMessage(receiver, Doc(Wire(Relayed(IceCandidate, Some(JStr(candidate)), c)))).effects)
            == [ClientCore.OnIceCandidate(Quote(candidate), c)]
  {
    var w := Wire(Relayed(IceCandidate, Some(JStr(candidate)), c));
    WireRelayed(IceCandidate, JStr(candidate), c);
    var answer := KotlinClient.AnswerText(Get(w.fields, "answer"));
    var r := ClientCore.Dispatch(receiver, w.fields, KotlinClient.RegisterMessage(), answer);
    assert KotlinClient.HandleMessage(receiver, Doc(w)) == r;
    ClientProperties.IceCandidateNotifies(receiver, w.fields, KotlinClient.RegisterMessage(), answer);
    StringText(candidate);
  }

  /** The JSON text of a string is its quoted form. */
  lemma StringText(x: string)
    ensures Serialize(JStr(x)) == Quote(x)
  {
  }

  // ----- viewers and errors -----

  /** A viewer joining the client's stream reaches onViewerJoined with the
      viewer's id, when the client's socket is OPEN. */
  lemma ViewerJoinReachesStreamer(p: Policy, s: State, v: ClientId, id: string, st: ClientCore.ClientState, uuid: string)
    requires v in s.clients && (p.AsWritten? || s.clients[v].role.None?)
    requires JStr(id) in s.streams && id != "" && Reachable(s, s.streams[JStr(id)].streamerId)
    ensures var t := Step(p, s, Msg(v, JoinRequest(id), uuid));
            Out(s.streams[JStr(id)].streamerId, ViewerJoined(v)) in t.out
    ensures var k := KotlinClient.HandleMessage(st, Doc(Wire(ViewerJoined(v))));
            && k.state == st && ClientCore.Sent(k.effects) == []
            && ClientCore.Callbacks(k.effects) == [ClientCore.OnViewerJoined(v)]
  {
    RegisterViewerNotifies(p, s, v, id, uuid);
    var w := Wire(ViewerJoined(v));
    WireViewerJoined(v);
    var answer := KotlinClient.AnswerText(Get(w.fields, "answer"));
    ClientProperties.ViewerJoinedNotifies(st, w.fields, KotlinClient.RegisterMessage(), answer);
    assert KotlinClient.HandleMessage(st, Doc(w)) == ClientCore.Dispatch(st, w.fields, KotlinClient.RegisterMessage(), answer);
  }

  /** Every error the mediator sends reaches onError with its message. */
  lemma ErrorReachesListener(st: ClientCore.ClientState, message: string)
    ensures var k := KotlinClient.HandleMessage(st, Doc(Wire(Error(message))));
            && k.state == st && ClientCore.Sent(k.effects) == []
            && ClientCore.Callbacks(k.effects) == [ClientCore.OnError(message)]
  {
    var w := Wire(Error(message));
    WireError(message);
    var answer := KotlinClient.AnswerText(Get(w.fields, "answer"));
    ClientProperties.ErrorReported(st, w.fields, KotlinClient.RegisterMessage(), answer);
    assert KotlinClient.HandleMessage(st, Doc(w)) == ClientCore.Dispatch(st, w.fields, KotlinClient.RegisterMessage(), answer);
  }

  /** viewer-left and stream-ended, which the mediator sends to streamers and
      viewers, name no case of the client's handleMessage: they change nothing. */
  lemma DepartureFramesIgnored(st: ClientCore.ClientState, v: ClientId)
    ensures KotlinClient.HandleMessage(st, Doc(Wire(ViewerLeft(v)))) == ClientCore.Reaction(st, [])
    ensures KotlinClient.HandleMessage(st, Doc(Wire(StreamEnded))) == ClientCore.Reaction(st, [])
  {
    var left := Wire(ViewerLeft(v));
    var ended := Wire(StreamEnded);
    WireViewerLeft(v);
    WireStreamEnded();
    assert ClientProperties.Typed(left.fields, "viewer-left");
    assert ClientProperties.Typed(ended.fields, "stream-ended");
    ClientProperties.UnhandledIgnored(st, left.fields, KotlinClient.RegisterMessage(),
                                      KotlinClient.AnswerText(Get(left.fields, "answer")));
    ClientProperties.UnhandledIgnored(st, ended.fields, KotlinClient.RegisterMessage(),
                                      KotlinClient.AnswerText(Get(ended.fields, "answer")));
  }

  // ----- teardown -----

  /** disconnect() on a registered client sends stop-stream, which makes the
      mediator end the client's own stream and tell its viewers. */
  lemma DisconnectEndsStream(p: Policy, s: State, c: ClientId, key: Json, st: ClientCore.ClientState, uuid: string)
    requires st.socketOpen && st.streamId.Some?
    requires c in s.clients && s.clients[c].streamId == Some(key) && Truthy(Some(key))
    requires key in s.streams && s.streams[key].streamerId == c
    ensures var sent := ClientCore.Sent(ClientCore.Disconnect(st).effects);
            && |sent| == 1
            && var t := Step(p, s, Message(c, Doc(sent[0]), uuid));
               && t.state.streams == s.streams - {key}
               && t.out == Broadcast(s.streams[key].viewers, s) + (if Printable(key) then [] else [Out(c, Error(InvalidFormat))])
  {
    assert ClientCore.StopStreamMessage == JObj(StopStreamRequest());
    StopStreamStep(p, s, c, uuid);
  }
}
