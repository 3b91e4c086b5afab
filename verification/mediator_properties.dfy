/** What the mediator of signaling-server/server.js does, stated over whole
    steps of the state machine: the accept path, the error paths, registration,
    relaying, stream teardown and its idempotence, and the invariant every event
    keeps. Unless a lemma names `AsWritten`, it holds under both policies. */
module MediatorProperties {
  import opened Json
  import opened Mediator

  /** An inbound frame carrying one JSON object. */
  function Msg(c: ClientId, data: seq<(string, Json)>, uuid: string): Event
  {
    Message(c, Doc(JObj(data)), uuid)
  }

  function StopStreamRequest(): seq<(string, Json)>
  {
    [("type", JStr("stop-stream"))]
  }

  /** The `type` values handleMessage dispatches on. */
  predicate Handled(ty: Option<Json>)
  {
    ty in {Some(JStr("register-streamer")), Some(JStr("register-viewer")), Some(JStr("offer")),
           Some(JStr("answer")), Some(JStr("ice-candidate")), Some(JStr("stop-stream"))}
  }

  /** Invariant of the registries that every event keeps: only registered
      connections are OPEN, no viewer set holds an id twice, and a connection has
      a role exactly when it has a stream. */
  predicate WellFormed(s: State)
  {
    && s.open <= s.clients.Keys
    && (forall k :: k in s.streams ==> NoDup(s.streams[k].viewers))
    && (forall c :: c in s.clients ==> (s.clients[c].role.Some? <==> s.clients[c].streamId.Some?))
  }

  // ----- accept and the paths that do nothing -----

  lemma AcceptGreets(p: Policy, s: State, id: ClientId)
    requires id !in s.clients
    ensures var t := Step(p, s, Accept(id));
            && t.state.clients == s.clients[id := Client(None, None)]
            && t.state.streams == s.streams
            && |t.out| == 1 && t.out[0] == Out(id, Connected(id))
            && Wire(t.out[0].msg) == JObj([("type", JStr("connected")), ("clientId", JStr(id))])
  {
  }

  lemma UnknownSenderIgnored(p: Policy, s: State, c: ClientId, data: Json, uuid: string)
    requires c !in s.clients
    ensures Step(p, s, Message(c, Doc(data), uuid)) == Transition(s, [])
  {
  }

  /** An unknown `type` changes nothing; the sender hears an error only when
      the default branch's log line cannot print the type. */
  lemma UnknownTypeIgnored(p: Policy, s: State, c: ClientId, data: seq<(string, Json)>, uuid: string)
    requires !Handled(Get(data, "type"))
    ensures var ty := Get(data, "type");
            Step(p, s, Msg(c, data, uuid))
            == Transition(s, if c in s.clients && ty.Some? && !Printable(ty.value) then [Out(c, Error(InvalidFormat))] else [])
  {
  }

  /** Text JSON.parse rejects, and a `null` document from a registered
      connection, are answered with one error to the sender and change nothing. */
  lemma MalformedAnswered(p: Policy, s: State, c: ClientId, text: Text, uuid: string)
    requires text.Blank? || text.Garbage? || (text == Doc(JNull) && c in s.clients)
    ensures Step(p, s, Message(c, text, uuid)) == Transition(s, [Out(c, Error(InvalidFormat))])
  {
  }

  // ----- registration -----

  /** In the source every register-streamer binds the caller, even one whose
      key the reply cannot print; that caller is told of an error instead. */
  lemma RegisterStreamerReplies(s: State, c: ClientId, data: seq<(string, Json)>, uuid: string)
    requires c in s.clients
    requires Get(data, "type") == Some(JStr("register-streamer"))
    ensures var t := Step(AsWritten, s, Msg(c, data, uuid));
            var key := StreamKey(data, uuid);
            && t.state.clients[c] == Client(Some(Streamer), Some(key))
            && key in t.state.streams && t.state.streams[key].streamerId == c
            && t.state.streams[key].viewers == []
            && (forall k :: k != key ==> (k in t.state.streams <==> k in s.streams))
            && (forall k :: k in s.streams && k != key ==> t.state.streams[k] == s.streams[k])
            && t.out == [Out(c, if Printable(key) then Registered(Streamer, key, EmbedUrl(key)) else Error(InvalidFormat))]
  {
  }

  /** The embed link a streamer is given ends in its own string stream id. */
  lemma EmbedUrlNamesStream(id: string)
    ensures var url := EmbedUrl(JStr(id));
            url == Some(BaseUrl + "/viewer.html?streamId=" + id)
  {
  }

  lemma RegisterViewerNotFound(p: Policy, s: State, c: ClientId, data: seq<(string, Json)>, uuid: string)
    requires c in s.clients && (p.AsWritten? || s.clients[c].role.None?)
    requires Get(data, "type") == Some(JStr("register-viewer"))
    requires Get(data, "streamId").None? || (Get(data, "streamId").value.JStr? && Get(data, "streamId").value !in s.streams)
    ensures Step(p, s, Msg(c, data, uuid)) == Transition(s, [Out(c, Error(StreamNotFound))])
  {
  }

  /** A register-viewer frame naming the string stream id `id`. */
  function JoinRequest(id: string): seq<(string, Json)>
  {
    [("type", JStr("register-viewer")), ("streamId", JStr(id))]
  }

  lemma JoinRequestFinds(s: State, id: string)
    requires JStr(id) in s.streams && id != ""
    ensures Get(JoinRequest(id), "type") == Some(JStr("register-viewer"))
    ensures FindsStream(s, JoinRequest(id)) && Get(JoinRequest(id), "streamId") == Some(JStr(id))
  {
    GetDistinct(JoinRequest(id), 0);
    GetDistinct(JoinRequest(id), 1);
  }

  /** Joining an existing stream: the connection becomes its viewer, bound to
      it, and the stream keeps its streamer. */
  lemma RegisterViewerJoins(p: Policy, s: State, c: ClientId, id: string, uuid: string)
    requires c in s.clients && (p.AsWritten? || s.clients[c].role.None?)
    requires JStr(id) in s.streams && id != ""
    ensures var t := Step(p, s, Msg(c, JoinRequest(id), uuid));
            && t.state.clients[c] == Client(Some(Viewer), Some(JStr(id)))
            && t.state.streams.Keys == s.streams.Keys
            && c in t.state.streams[JStr(id)].viewers
            && t.state.streams[JStr(id)].streamerId == s.streams[JStr(id)].streamerId
  {
    JoinRequestFinds(s, id);
    RegisterViewerStep(p, s, c, JoinRequest(id), uuid);
  }

  /** The joining viewer is told it registered, and the streamer is told a
      viewer joined exactly when its socket is OPEN. */
  lemma RegisterViewerNotifies(p: Policy, s: State, c: ClientId, id: string, uuid: string)
    requires c in s.clients && (p.AsWritten? || s.clients[c].role.None?)
    requires JStr(id) in s.streams && id != ""
    ensures var t := Step(p, s, Msg(c, JoinRequest(id), uuid));
            var streamer := s.streams[JStr(id)].streamerId;
            && To(t.out, c) == (if streamer == c && Reachable(s, c) then [Registered(Viewer, JStr(id), None), ViewerJoined(c)]
                                else [Registered(Viewer, JStr(id), None)])
            && (Reachable(s, streamer) <==> Out(streamer, ViewerJoined(c)) in t.out)
            && |t.out| <= 2
  {
    JoinRequestFinds(s, id);
    RegisterViewerStep(p, s, c, JoinRequest(id), uuid);
    var streamer := s.streams[JStr(id)].streamerId;
    var t := RegisterViewer(s, c, JoinRequest(id));
    assert t.out == [t.out[0]] + t.out[1..];
    JoinReplies(t.out, c, JStr(id), streamer, Reachable(s, streamer));
  }

  /** The replies of a successful join: the registration to the viewer, then
      viewer-joined to the streamer when `notified`. */
  lemma JoinReplies(out: seq<Outbound>, c: ClientId, key: Json, streamer: ClientId, notified: bool)
    requires out == [Out(c, Registered(Viewer, key, None))] + (if notified then [Out(streamer, ViewerJoined(c))] else [])
    ensures To(out, c) == (if streamer == c && notified then [Registered(Viewer, key, None), ViewerJoined(c)]
                           else [Registered(Viewer, key, None)])
    ensures notified <==> Out(streamer, ViewerJoined(c)) in out
    ensures |out| <= 2
  {
    var notify := if notified then [Out(streamer, ViewerJoined(c))] else [];
    ToPrepend(out[0], notify, c);
    if notified { ToPrepend(notify[0], [], c); }
  }

  /** register-viewer from a connection the policy lets register. */
  lemma RegisterViewerStep(p: Policy, s: State, c: ClientId, data: seq<(string, Json)>, uuid: string)
    requires c in s.clients && (p.AsWritten? || s.clients[c].role.None?)
    requires Get(data, "type") == Some(JStr("register-viewer"))
    ensures Step(p, s, Msg(c, data, uuid)) == RegisterViewer(s, c, data)
  {
  }

  lemma ToPrepend(o: Outbound, rest: seq<Outbound>, c: ClientId)
    ensures To([o] + rest, c) == (if o.to == c then [o.msg] else []) + To(rest, c)
  {
    assert ([o] + rest)[1..] == rest;
  }

  // ----- the wire format, as a JSON reader sees it -----

  lemma PayloadKeyDistinct(kind: RelayKind)
    ensures PayloadKey(kind) !in {"type", "targetId", "senderId"}
  {
    match kind
    case Offer =>
    case Answer =>
    case IceCandidate =>
  }

  lemma WireConnected(id: ClientId)
    ensures Field(Wire(Connected(id)), "type") == Some(JStr("connected"))
    ensures Field(Wire(Connected(id)), "clientId") == Some(JStr(id))
  {
    var fields := Wire(Connected(id)).fields;
    GetDistinct(fields, 0);
    GetDistinct(fields, 1);
  }

  lemma WireRegistered(role: Role, key: Json, url: string)
    ensures var j := Wire(Registered(role, key, Some(url)));
            && Field(j, "type") == Some(JStr("registered"))
            && Field(j, "role") == Some(JStr(RoleName(role)))
            && Field(j, "streamId") == Some(key)
            && Field(j, "embedUrl") == Some(JStr(url))
  {
    var fields := Wire(Registered(role, key, Some(url))).fields;
    assert fields == [("type", JStr("registered")), ("role", JStr(RoleName(role))), ("streamId", key), ("embedUrl", JStr(url))];
    GetDistinct(fields, 0);
    GetDistinct(fields, 1);
    GetDistinct(fields, 2);
    GetDistinct(fields, 3);
  }

  /** A relayed message names its kind, carries the payload under the same
      key it arrived under, and names the sender. */
  lemma WireRelayed(kind: RelayKind, payload: Json, sender: ClientId)
    ensures var j := Wire(Relayed(kind, Some(payload), sender));
            && Field(j, "type") == Some(JStr(TypeName(kind)))
            && Field(j, PayloadKey(kind)) == Some(payload)
            && Field(j, "senderId") == Some(JStr(sender))
  {
    var fields := Wire(Relayed(kind, Some(payload), sender)).fields;
    assert fields == [("type", JStr(TypeName(kind))), (PayloadKey(kind), payload), ("senderId", JStr(sender))];
    PayloadKeyDistinct(kind);
    GetDistinct(fields, 0);
    GetDistinct(fields, 1);
    GetDistinct(fields, 2);
  }

  lemma WireViewerJoined(v: ClientId)
    ensures Field(Wire(ViewerJoined(v)), "type") == Some(JStr("viewer-joined"))
    ensures Field(Wire(ViewerJoined(v)), "viewerId") == Some(JStr(v))
  {
    var fields := Wire(ViewerJoined(v)).fields;
    GetDistinct(fields, 0);
    GetDistinct(fields, 1);
  }

  lemma WireViewerLeft(v: ClientId)
    ensures Field(Wire(ViewerLeft(v)), "type") == Some(JStr("viewer-left"))
    ensures Field(Wire(ViewerLeft(v)), "viewerId") == Some(JStr(v))
  {
    var fields := Wire(ViewerLeft(v)).fields;
    GetDistinct(fields, 0);
    GetDistinct(fields, 1);
  }

  lemma WireError(message: string)
    ensures Field(Wire(Error(message)), "type") == Some(JStr("error"))
    ensures Field(Wire(Error(message)), "message") == Some(JStr(message))
  {
    var fields := Wire(Error(message)).fields;
    GetDistinct(fields, 0);
    GetDistinct(fields, 1);
  }

  lemma WireStreamEnded()
    ensures Field(Wire(StreamEnded), "type") == Some(JStr("stream-ended"))
    ensures Wire(StreamEnded).fields == [("type", JStr("stream-ended"))]
  {
    GetDistinct(Wire(StreamEnded).fields, 0);
  }

  // ----- relaying -----

  /** A relay frame naming an OPEN target is forwarded to it unchanged. */
  lemma RelayForwards(p: Policy, s: State, c: ClientId, data: seq<(string, Json)>, kind: RelayKind,
                      target: ClientId, uuid: string)
    requires c in s.clients && Reachable(s, target)
    requires Get(data, "type") == Some(JStr(TypeName(kind))) && Get(data, "targetId") == Some(JStr(target))
    ensures Step(p, s, Msg(c, data, uuid))
            == Transition(s, [Out(target, Relayed(kind, Get(data, PayloadKey(kind)), c))])
  {
    assert Step(p, s, Msg(c, data, uuid)) == Dispatch(p, s, c, data, uuid);
    assert Dispatch(p, s, c, data, uuid) == Relay(s, c, data, kind) by {
      match kind
      case Offer =>
      case Answer =>
      case IceCandidate =>
    }
  }

  lemma RelaySymmetric(p: Policy, s: State, c: ClientId, kind: RelayKind, target: ClientId,
                       payload: Json, uuid: string)
    requires Reachable(s, target)
    requires c in s.clients
    ensures var data := [("type", JStr(TypeName(kind))), (PayloadKey(kind), payload), ("targetId", JStr(target))];
            var t := Step(p, s, Msg(c, data, uuid));
            && t.state == s
            && t.out == [Out(target, Relayed(kind, Some(payload), c))]
            && Field(Wire(t.out[0].msg), "type") == Some(JStr(TypeName(kind)))
            && Field(Wire(t.out[0].msg), PayloadKey(kind)) == Some(payload)
            && Field(Wire(t.out[0].msg), "senderId") == Some(JStr(c))
  {
    var data := [("type", JStr(TypeName(kind))), (PayloadKey(kind), payload), ("targetId", JStr(target))];
    PayloadKeyDistinct(kind);
    GetDistinct(data, 0);
    GetDistinct(data, 1);
    GetDistinct(data, 2);
    RelayForwards(p, s, c, data, kind, target, uuid);
    WireRelayed(kind, payload, c);
  }

  lemma RelayToAbsentDropped(p: Policy, s: State, c: ClientId, data: seq<(string, Json)>, uuid: string)
    requires Get(data, "type") in {Some(JStr("offer")), Some(JStr("answer")), Some(JStr("ice-candidate"))}
    requires Target(data).None? || !Reachable(s, Target(data).value)
    ensures Step(p, s, Msg(c, data, uuid)) == Transition(s, [])
  {
  }

  // ----- stream teardown -----

  /** handleStopStream in the source: a stream the caller is bound to ends for
      any caller, viewer or streamer, owner or not; a key the log line cannot
      print adds an error to the caller after the broadcast. */
  lemma StopStreamEndsBoundStream(s: State, c: ClientId, uuid: string)
    requires BoundStream(s, c).Some? && BoundStream(s, c).value in s.streams
    ensures var key := BoundStream(s, c).value;
            var t := Step(AsWritten, s, Msg(c, StopStreamRequest(), uuid));
            && t.state == s.(streams := s.streams - {key})
            && t.out == Broadcast(s.streams[key].viewers, s) + (if Printable(key) then [] else [Out(c, Error(InvalidFormat))])
  {
  }

  /** stop-stream from a registered connection is handleStopStream. */
  lemma StopStreamStep(p: Policy, s: State, c: ClientId, uuid: string)
    requires c in s.clients
    ensures Step(p, s, Msg(c, StopStreamRequest(), uuid)) == StopStream(p, s, c)
  {
    assert Get(StopStreamRequest(), "type") == Some(JStr("stop-stream"));
    assert Step(p, s, Msg(c, StopStreamRequest(), uuid)) == Dispatch(p, s, c, StopStreamRequest(), uuid);
  }

  /** The stream-ended broadcast reaches each present, OPEN viewer of the set
      exactly once, and no one else. */
  lemma BroadcastOncePerViewer(viewers: seq<ClientId>, s: State)
    requires NoDup(viewers)
    ensures var out := Broadcast(viewers, s);
            && (forall v :: v in Recipients(out) <==> v in viewers && Reachable(s, v))
            && DistinctRecipients(out)
  {
    BroadcastDistinct(viewers, s);
  }

  /** No connection is addressed twice. */
  predicate DistinctRecipients(out: seq<Outbound>)
  {
    forall i, j :: 0 <= i < j < |out| ==> out[i].to != out[j].to
  }

  lemma {:induction false} BroadcastDistinct(viewers: seq<ClientId>, s: State)
    requires NoDup(viewers)
    ensures DistinctRecipients(Broadcast(viewers, s))
  {
    if |viewers| > 0 {
      assert NoDup(viewers[1..]);
      BroadcastDistinct(viewers[1..], s);
      var rest := Broadcast(viewers[1..], s);
      assert viewers[0] !in viewers[1..];
      assert viewers[0] !in Recipients(rest);
      var head := if Reachable(s, viewers[0]) then [Out(viewers[0], StreamEnded)] else [];
      var out := head + rest;
      assert out == Broadcast(viewers, s);
      assert DistinctRecipients(rest);
      forall i, j | 0 <= i < j < |out| ensures out[i].to != out[j].to {
        assert out[j] == rest[j - |head|];
        if i < |head| {
          assert out[i].to == viewers[0];
          assert rest[j - |head|].to in Recipients(rest);
        } else {
          assert out[i] == rest[i - |head|];
          assert rest[i - |head|].to != rest[j - |head|].to;
        }
      }
    }
  }

  /** What stop-stream tells each connection: one stream-ended to every
      present, OPEN viewer of the set, and, when the key cannot be printed, one
      error to the caller after it. */
  lemma StopStreamTellsEachOnce(p: Policy, s: State, c: ClientId, v: ClientId)
    requires Stops(p, s, c) && NoDup(s.streams[BoundStream(s, c).value].viewers)
    ensures var key := BoundStream(s, c).value;
            var viewers := s.streams[key].viewers;
            To(StopStream(p, s, c).out, v)
            == (if v in viewers && Reachable(s, v) then [StreamEnded] else [])
               + (if v == c && !Printable(key) then [Error(InvalidFormat)] else [])
  {
    var key := BoundStream(s, c).value;
    var viewers := s.streams[key].viewers;
    var extra := if Printable(key) then [] else [Out(c, Error(InvalidFormat))];
    StopStreamSends(p, s, c);
    ToBroadcast(viewers, s, v);
    ToAppend(Broadcast(viewers, s), extra, v);
    if |extra| > 0 { ToSingle(extra[0], v); }
  }

  /** The messages of a stop that ends a stream: the broadcast, then the error
      when the log line throws. */
  lemma StopStreamSends(p: Policy, s: State, c: ClientId)
    requires Stops(p, s, c)
    ensures var key := BoundStream(s, c).value;
            StopStream(p, s, c).out
            == Broadcast(s.streams[key].viewers, s) + (if Printable(key) then [] else [Out(c, Error(InvalidFormat))])
  {
  }

  lemma ToSingle(o: Outbound, c: ClientId)
    ensures To([o], c) == if o.to == c then [o.msg] else []
  {
    ToPrepend(o, [], c);
    assert [o] + [] == [o];
  }

  lemma {:induction false} ToAppend(a: seq<Outbound>, b: seq<Outbound>, c: ClientId)
    ensures To(a + b, c) == To(a, c) + To(b, c)
  {
    var ab := a + b;
    if |a| == 0 {
      assert ab == b;
    } else {
      var head := if a[0].to == c then [a[0].msg] else [];
      assert ab[0] == a[0] && ab[1..] == a[1..] + b;
      ToAppend(a[1..], b, c);
      assert To(ab, c) == head + To(ab[1..], c);
      assert To(a, c) == head + To(a[1..], c);
      assert head + (To(a[1..], c) + To(b, c)) == (head + To(a[1..], c)) + To(b, c);
    }
  }

  lemma {:induction false} ToBroadcast(viewers: seq<ClientId>, s: State, v: ClientId)
    requires NoDup(viewers)
    ensures To(Broadcast(viewers, s), v) == if v in viewers && Reachable(s, v) then [StreamEnded] else []
  {
    if |viewers| > 0 {
      var head := if Reachable(s, viewers[0]) then [Out(viewers[0], StreamEnded)] else [];
      var rest := Broadcast(viewers[1..], s);
      assert NoDup(viewers[1..]);
      ToBroadcast(viewers[1..], s, v);
      ToAppend(head, rest, v);
      assert Broadcast(viewers, s) == head + rest;
      if |head| > 0 { ToPrepend(head[0], [], v); assert head == [head[0]] + []; }
      assert viewers == [viewers[0]] + viewers[1..];
      assert viewers[0] !in viewers[1..];
    }
  }

  /** Idempotence: once stop-stream has run, a second one does nothing. */
  lemma StopStreamTwice(p: Policy, s: State, c: ClientId, uuid: string, uuid': string)
    ensures var first := Step(p, s, Msg(c, StopStreamRequest(), uuid));
            Stops(p, s, c) ==> Step(p, first.state, Msg(c, StopStreamRequest(), uuid')) == Transition(first.state, [])
  {
  }

  /** After stop-stream, the streamer's disconnect broadcasts nothing more. */
  lemma CloseAfterStopStreamSilent(p: Policy, s: State, c: ClientId, uuid: string)
    requires Stops(p, s, c)
    ensures var first := Step(p, s, Msg(c, StopStreamRequest(), uuid));
            var close := Step(p, first.state, Close(c));
            close.out == [] && !close.crashed
  {
  }

  lemma {:induction false} BroadcastIgnoresClosedPeer(viewers: seq<ClientId>, s: State, c: ClientId)
    ensures Broadcast(viewers, s.(open := s.open - {c})) == Drop(Broadcast(viewers, s), c)
  {
    if |viewers| > 0 {
      BroadcastIgnoresClosedPeer(viewers[1..], s, c);
      var head := if Reachable(s, viewers[0]) then [Out(viewers[0], StreamEnded)] else [];
      DropAppend(head, Broadcast(viewers[1..], s), c);
    }
  }

  lemma {:induction false} DropAppend(a: seq<Outbound>, b: seq<Outbound>, c: ClientId)
    ensures Drop(a + b, c) == Drop(a, c) + Drop(b, c)
  {
    if |a| == 0 {
      assert a + b == b;
    } else {
      var head := if a[0].to == c then [] else [a[0]];
      assert (a + b)[0] == a[0] && (a + b)[1..] == a[1..] + b;
      DropAppend(a[1..], b, c);
      calc {
        Drop(a + b, c);
        head + Drop(a[1..] + b, c);
        head + (Drop(a[1..], c) + Drop(b, c));
        (head + Drop(a[1..], c)) + Drop(b, c);
      }
    }
  }

  /** handleDisconnect of a streamer with a stream id is handleStopStream, with
      the closing connection itself left out of what is sent and deleted. When
      the stop's log line throws, nothing catches it: the process ends with the
      connection's entry still in place. */
  lemma CloseStreamerIsStopStream(p: Policy, s: State, c: ClientId)
    requires c in s.clients && s.clients[c].role == Some(Streamer) && Truthy(s.clients[c].streamId)
    ensures var stop := StopStream(p, s, c);
            var close := Step(p, s, Close(c));
            && (close.crashed <==> Stops(p, s, c) && !Printable(BoundStream(s, c).value))
            && close.state == stop.state.(clients := if close.crashed then stop.state.clients else stop.state.clients - {c},
                                          open := stop.state.open - {c})
            && close.out == Drop(stop.out, c)
  {
    var s0 := s.(open := s.open - {c});
    assert Stops(p, s0, c) == Stops(p, s, c);
    if Stops(p, s, c) {
      var key := BoundStream(s, c).value;
      var viewers := s.streams[key].viewers;
      BroadcastIgnoresClosedPeer(viewers, s, c);
      if !Printable(key) {
        var reply := [Out(c, Error(InvalidFormat))];
        DropAppend(Broadcast(viewers, s), reply, c);
        assert Drop(reply, c) == [] by { assert reply[1..] == []; }
      }
    }
  }

  /** handleDisconnect of a viewer: it leaves the set, the stream stays, and the
      streamer hears `viewer-left` once if its socket is OPEN. */
  lemma CloseViewerLeaves(p: Policy, s: State, c: ClientId)
    requires c in s.clients && s.clients[c].role == Some(Viewer) && Truthy(s.clients[c].streamId)
    requires s.clients[c].streamId.value in s.streams
    ensures var key := s.clients[c].streamId.value;
            var stream := s.streams[key];
            var t := Step(p, s, Close(c));
            && t.state.streams.Keys == s.streams.Keys
            && t.state.streams[key].streamerId == stream.streamerId
            && (forall v :: v in t.state.streams[key].viewers <==> v in stream.viewers && v != c)
            && (forall k :: k in s.streams && k != key ==> t.state.streams[k] == s.streams[k])
            && t.state.clients == s.clients - {c}
            && t.out == (if stream.streamerId != c && Reachable(s, stream.streamerId)
                            && (p.AsWritten? || c in stream.viewers)
                         then [Out(stream.streamerId, ViewerLeft(c))] else [])
  {
  }

  // ----- the reach of one event -----

  /** A handled message stays inside the try: it never throws, opens or closes
      no socket, rebinds no one but its sender (and, under the guarded policy,
      not a sender that already has a role), creates no stream but the
      registration key and deletes no stream but the sender's own. */
  lemma DispatchReach(p: Policy, s: State, c: ClientId, data: seq<(string, Json)>, uuid: string)
    requires c in s.clients
    ensures var t := Dispatch(p, s, c, data, uuid);
            && !t.crashed && t.state.open == s.open
            && t.state.clients.Keys == s.clients.Keys
            && (forall k :: k in s.clients && k != c ==> t.state.clients[k] == s.clients[k])
            && (p.Guarded? && s.clients[c].role.Some? ==> t.state.clients == s.clients)
            && t.state.streams.Keys <= s.streams.Keys + {StreamKey(data, uuid)}
            && (forall k :: k in s.streams && k !in t.state.streams ==> BoundStream(s, c) == Some(k))
  {
    var ty := Get(data, "type");
    var t := Dispatch(p, s, c, data, uuid);
    if ty == Some(JStr("register-streamer")) {
      if p.Guarded? && s.clients[c].role.Some? {
        assert t == Idle(s);
      } else {
        assert t == RegisterStreamer(p, s, c, data, uuid);
      }
    } else if ty == Some(JStr("register-viewer")) {
      if p.Guarded? && s.clients[c].role.Some? {
        assert t == Idle(s);
      } else {
        assert t == RegisterViewer(s, c, data);
      }
    } else if ty == Some(JStr("stop-stream")) {
      assert t == StopStream(p, s, c);
    } else {
      assert t.state == s;
    }
  }

  /** ws.on('message') never throws out of its handler. Only a JSON object from
      a registered connection changes the registries, and only the sender's
      entry among them; a frame to anyone else needs such a document. */
  lemma ReceiveReach(p: Policy, s: State, c: ClientId, text: Text, uuid: string)
    ensures var t := Receive(p, s, c, text, uuid);
            && !t.crashed && t.state.open == s.open && t.state.clients.Keys == s.clients.Keys
            && (!(c in s.clients && text.Doc? && text.value.JObj?) ==> t.state == s)
            && (forall k :: k in s.clients && k != c ==> t.state.clients[k] == s.clients[k])
            && (forall i :: 0 <= i < |t.out| && t.out[i].to != c ==>
                  c in s.clients && text.Doc? && text.value.JObj?)
  {
    if c in s.clients && text.Doc? && text.value.JObj? {
      DispatchReach(p, s, c, text.value.fields, uuid);
    }
  }

  /** One socket event. Only a close can throw out of its handler, and exactly
      when a streamer's stop ends a stream under a key that cannot be printed;
      only an accept adds an entry or opens a socket; a message keeps the
      entries and the open set; a close that does not throw removes its entry. */
  lemma StepReach(p: Policy, s: State, e: Event)
    ensures var t := Step(p, s, e);
            && (t.crashed <==> e.Close? && Crashes(p, s, e.id))
            && (!e.Accept? ==> t.state.open <= s.open)
            && (e.Accept? ==> t.state.clients.Keys == s.clients.Keys + {e.id} && e.id in t.state.open)
            && (e.Message? ==> t.state.clients.Keys == s.clients.Keys && t.state.open == s.open)
            && (e.Closing? ==> t.state.clients == s.clients && t.state.streams == s.streams && t.out == [])
            && (e.Close? ==> e.id !in t.state.open)
            && (e.Close? && !t.crashed ==> t.state.clients.Keys == s.clients.Keys - {e.id})
  {
    match e
    case Accept(id) =>
    case Message(c, text, uuid) => ReceiveReach(p, s, c, text, uuid);
    case Closing(id) =>
    case Close(id) =>
  }

  // ----- the invariant -----

  lemma StepKeepsWellFormed(p: Policy, s: State, e: Event)
    requires WellFormed(s)
    ensures WellFormed(Step(p, s, e).state)
  {
    match e
    case Accept(id) =>
    case Message(c, text, uuid) =>
      if text.Doc? && c in s.clients && text.value.JObj? {
        DispatchKeepsWellFormed(p, s, c, text.value.fields, uuid);
      }
    case Closing(id) =>
    case Close(c) => DisconnectKeepsWellFormed(p, s, c);
  }

  lemma DispatchKeepsWellFormed(p: Policy, s: State, c: ClientId, data: seq<(string, Json)>, uuid: string)
    requires WellFormed(s) && c in s.clients
    ensures WellFormed(Dispatch(p, s, c, data, uuid).state)
  {
    var ty := Get(data, "type");
    if ty == Some(JStr("register-viewer")) && FindsStream(s, data) {
      var key := Get(data, "streamId").value;
      assert NoDup(SetAdd(s.streams[key].viewers, c));
    }
  }

  lemma DisconnectKeepsWellFormed(p: Policy, s: State, c: ClientId)
    requires WellFormed(s)
    ensures WellFormed(Disconnect(p, s, c).state)
  {
    var s0 := s.(open := s.open - {c});
    if c in s0.clients {
      var client := s0.clients[c];
      if client.role == Some(Viewer) && Truthy(client.streamId) && client.streamId.value in s0.streams {
        var key := client.streamId.value;
        assert NoDup(SetRemove(s.streams[key].viewers, c));
      }
    }
  }
}
