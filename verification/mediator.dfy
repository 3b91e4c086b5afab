/** The signalling mediator of signaling-server/server.js: two registries
    (`clients` and `streams`) and one pure transition per socket event. Node runs
    one handler at a time, so each event is one atomic step from a state to a new
    state plus the messages the handler sends, in order. */
module Mediator {
  import opened Json

  type ClientId = string

  datatype Role = Streamer | Viewer

  /** The entry `clients[id]`: the role and the stream the connection registered
      with; both are null until it registers. */
  datatype Client = Client(role: Option<Role>, streamId: Option<Json>)

  /** The entry `streams[key]`. The viewer Set of the source keeps insertion order,
      which is the order `stream-ended` is broadcast in, so it is a sequence here
      that holds each id at most once. */
  datatype Stream = Stream(streamerId: ClientId, viewers: seq<ClientId>)

  /** Both registries, plus the connections whose socket is still OPEN. Stream
      keys are whatever JSON value the streamer sent as `streamId`. */
  datatype State = State(clients: map<ClientId, Client>, streams: map<Json, Stream>, open: set<ClientId>)

  datatype RelayKind = Offer | Answer | IceCandidate

  /** The messages the mediator sends, before JSON.stringify (see Wire). */
  datatype OutMsg =
    | Connected(clientId: ClientId)
    | Registered(role: Role, streamId: Json, embedUrl: Option<string>)
    | Error(message: string)
    | Relayed(kind: RelayKind, payload: Option<Json>, senderId: ClientId)
    | ViewerJoined(viewerId: ClientId)
    | ViewerLeft(viewerId: ClientId)
    | StreamEnded

  datatype Outbound = Out(to: ClientId, msg: OutMsg)

  /** Socket events. `Closing` is a socket leaving the OPEN state before its close
      event; `freshStreamId` is the uuid the server would draw if the message is a
      `register-streamer` without a usable stream id. */
  datatype Event =
    | Accept(id: ClientId)
    | Message(from: ClientId, text: Text, freshStreamId: string)
    | Closing(id: ClientId)
    | Close(id: ClientId)

  /** The new registries and the messages sent, in order. `crashed` marks a
      handler that threw outside any try block: Node ends the process, and `state`
      is the registries as they were when the exception left the handler. */
  datatype Transition = Transition(state: State, out: seq<Outbound>, crashed: bool := false)

  /** `AsWritten` is server.js as it stands. `Guarded` adds four checks: a
      connection registers only while unassigned, a streamer registers only with
      a stream id a template literal can print, stop-stream is honoured only from
      the stream's own streamer, and viewer-left is sent only for a viewer the
      stream still lists. It states the corrected behaviour. */
  datatype Policy = AsWritten | Guarded

  const InvalidFormat := "Invalid message format"
  const StreamNotFound := "Stream not found"

  /** getBaseUrl() with neither PUBLIC_URL nor PORT set. */
  const BaseUrl := "http://localhost:3000"

  // ----- JavaScript value semantics -----

  /** `!!v` for a property read that may be undefined (None). */
  predicate Truthy(v: Option<Json>)
  {
    match v
    case None => false
    case Some(j) =>
      match j
      case JNull => false
      case JBool(b) => b
      case JNum(n) => n != 0
      case JStr(s) => s != ""
      case JArr(_) => true
      case JObj(_) => true
  }

  /** Values a JavaScript Map compares by reference: a freshly parsed object or
      array is never a key already in the map. */
  predicate IsReference(j: Json)
  {
    j.JArr? || j.JObj?
  }

  /** `${v}`: how a template literal converts an interpolated value, None when
      the conversion throws a TypeError. JSON.parse never yields a callable, so
      an object with its own `toString` member cannot be converted; an array joins
      its converted elements with commas (null as the empty string) and throws
      when one of them does. */
  function JsString(j: Json): (r: Option<string>)
    ensures j.JStr? ==> r == Some(j.s)
    ensures j.JNull? || j.JBool? || j.JNum? ==> r.Some?
    ensures j.JObj? ==> (r.None? <==> Get(j.fields, "toString").Some?)
    ensures j.JObj? && r.Some? ==> r.value == "[object Object]"
    ensures j.JArr? ==> (r.None? <==> exists i :: 0 <= i < |j.items| && JsString(j.items[i]).None?)
  {
    match j
    case JNull => Some("null")
    case JBool(b) => Some(if b then "true" else "false")
    case JNum(n) => Some(IntToString(n))
    case JStr(s) => Some(s)
    case JObj(fields) => if Get(fields, "toString").Some? then None else Some("[object Object]")
    case JArr(items) =>
      if exists i :: 0 <= i < |items| && JsString(items[i]).None? then None
      else Some(Join(seq(|items|, i requires 0 <= i < |items| =>
                           if items[i].JNull? then "" else JsString(items[i]).value), ","))
  }

  /** Whether interpolating `j` into a template literal succeeds. */
  predicate Printable(j: Json)
  {
    JsString(j).Some?
  }

  const EmbedPrefix := BaseUrl + "/viewer.html?streamId="

  /** The `embedUrl` of a streamer's `registered` reply; None when building it throws. */
  function EmbedUrl(key: Json): (r: Option<string>)
    ensures r.Some? <==> Printable(key)
    ensures r.Some? ==> |r.value| >= |EmbedPrefix| && r.value[..|EmbedPrefix|] == EmbedPrefix
    ensures key.JStr? ==> r == Some(EmbedPrefix + key.s)
  {
    match JsString(key)
    case Some(text) => Some(EmbedPrefix + text)
    case None => None
  }

  // ----- insertion-ordered sets of ids -----

  predicate NoDup(xs: seq<ClientId>)
  {
    forall i, j :: 0 <= i < j < |xs| ==> xs[i] != xs[j]
  }

  /** `Set.prototype.add`: appends an id that is not yet a member. */
  function SetAdd(xs: seq<ClientId>, x: ClientId): (r: seq<ClientId>)
    ensures forall y :: y in r <==> y in xs || y == x
    ensures NoDup(xs) ==> NoDup(r)
  {
    if x in xs then xs else xs + [x]
  }

  /** `Set.prototype.delete`: drops an id, keeping the others in order. */
  function SetRemove(xs: seq<ClientId>, x: ClientId): (r: seq<ClientId>)
    ensures forall y :: y in r <==> y in xs && y != x
    ensures NoDup(xs) ==> NoDup(r)
    ensures |r| <= |xs|
  {
    if |xs| == 0 then []
    else if xs[0] == x then SetRemove(xs[1..], x)
    else
      var rest := SetRemove(xs[1..], x);
      assert NoDup(xs) ==> NoDup(xs[1..]) && xs[0] !in xs[1..];
      NoDupPrepend(xs[0], rest);
      [xs[0]] + rest
  }

  lemma NoDupPrepend(x: ClientId, xs: seq<ClientId>)
    ensures NoDup(xs) && x !in xs ==> NoDup([x] + xs)
  {
    var r := [x] + xs;
    if !(NoDup(xs) && x !in xs) { return; }
    forall i, j | 0 <= i < j < |r| ensures r[i] != r[j] {
      if i == 0 { assert r[j] == xs[j - 1]; } else { assert r[i] == xs[i - 1] && r[j] == xs[j - 1]; }
    }
  }

  // ----- observers of an output sequence -----

  /** The messages addressed to `c`, in the order they are sent. */
  function To(out: seq<Outbound>, c: ClientId): (r: seq<OutMsg>)
    ensures |r| <= |out|
  {
    if |out| == 0 then []
    else (if out[0].to == c then [out[0].msg] else []) + To(out[1..], c)
  }

  /** `To` keeps exactly the messages addressed to `c`. */
  lemma {:induction false} ToMembers(out: seq<Outbound>, c: ClientId, m: OutMsg)
    ensures m in To(out, c) <==> Out(c, m) in out
  {
    if |out| > 0 {
      ToMembers(out[1..], c, m);
      assert out == [out[0]] + out[1..];
    }
  }

  function Recipients(out: seq<Outbound>): (r: set<ClientId>)
    ensures forall c :: c in r <==> exists i :: 0 <= i < |out| && out[i].to == c
  {
    set i | 0 <= i < |out| :: out[i].to
  }

  lemma RecipientsAppend(a: seq<Outbound>, b: seq<Outbound>)
    ensures Recipients(a + b) == Recipients(a) + Recipients(b)
  {
    var ab := a + b;
    forall c | c in Recipients(ab) ensures c in Recipients(a) + Recipients(b) {
      var i :| 0 <= i < |ab| && ab[i].to == c;
      if i < |a| { assert a[i] == ab[i]; } else { assert b[i - |a|] == ab[i]; }
    }
    forall c | c in Recipients(a) + Recipients(b) ensures c in Recipients(ab) {
      if c in Recipients(a) {
        var i :| 0 <= i < |a| && a[i].to == c;
        assert ab[i] == a[i];
      } else {
        var i :| 0 <= i < |b| && b[i].to == c;
        assert ab[|a| + i] == b[i];
      }
    }
  }

  /** The output without the messages addressed to `c`. */
  function Drop(out: seq<Outbound>, c: ClientId): (r: seq<Outbound>)
    ensures forall o :: o in r <==> o in out && o.to != c
    ensures |r| <= |out|
  {
    if |out| == 0 then []
    else (if out[0].to == c then [] else [out[0]]) + Drop(out[1..], c)
  }

  /** Whether the socket of `id` is present and OPEN, the test the source makes
      before every send to a connection other than the caller. */
  predicate Reachable(s: State, id: ClientId)
  {
    id in s.clients && id in s.open
  }

  /** One `stream-ended` to each viewer still present and OPEN, in set order. */
  function Broadcast(viewers: seq<ClientId>, s: State): (r: seq<Outbound>)
    ensures forall i :: 0 <= i < |r| ==> r[i].msg == StreamEnded
    ensures forall c :: c in Recipients(r) <==> c in viewers && Reachable(s, c)
    ensures |r| <= |viewers|
  {
    if |viewers| == 0 then []
    else
      var head := if Reachable(s, viewers[0]) then [Out(viewers[0], StreamEnded)] else [];
      var rest := Broadcast(viewers[1..], s);
      RecipientsAppend(head, rest);
      assert viewers == [viewers[0]] + viewers[1..];
      assert Recipients(head) == if Reachable(s, viewers[0]) then {viewers[0]} else {} by {
        if Reachable(s, viewers[0]) { assert head[0].to == viewers[0]; }
      }
      head + rest
  }

  // ----- handlers -----

  function Idle(s: State): (t: Transition)
    ensures t.state == s && |t.out| == 0
  {
    Transition(s, [])
  }

  /** wss.on('connection'): a new unassigned entry and a `connected` greeting. */
  function AcceptClient(s: State, id: ClientId): (t: Transition)
    ensures t.state.clients.Keys == s.clients.Keys + {id}
    ensures t.state.clients[id].role.None? && t.state.clients[id].streamId.None?
    ensures forall x :: x in s.clients && x != id ==> t.state.clients[x] == s.clients[x]
    ensures t.state.streams == s.streams
    ensures Reachable(t.state, id)
    ensures Recipients(t.out) == {id} && To(t.out, id) == [Connected(id)]
  {
    var t := Transition(s.(clients := s.clients[id := Client(None, None)], open := s.open + {id}),
                        [Out(id, Connected(id))]);
    assert t.out[0].to == id;
    t
  }

  /** The key handleRegisterStreamer binds: the requested `streamId` when it is
      truthy, otherwise the freshly drawn uuid. */
  function StreamKey(data: seq<(string, Json)>, uuid: string): Json
  {
    var requested := Get(data, "streamId");
    if Truthy(requested) then requested.value else JStr(uuid)
  }

  /** handleRegisterStreamer. The registries are updated before the log line
      interpolates the key, so a key that cannot be printed leaves the
      registration in place and the enclosing try answers with an error instead
      of `registered`. `Guarded` refuses such a key before touching anything. */
  function RegisterStreamer(p: Policy, s: State, c: ClientId, data: seq<(string, Json)>, uuid: string): (t: Transition)
    requires c in s.clients
    ensures !t.crashed && t.state.open == s.open
    ensures var key := StreamKey(data, uuid);
            (p.AsWritten? || Printable(key)) ==>
              && t.state.clients == s.clients[c := Client(Some(Streamer), Some(key))]
              && t.state.streams.Keys == s.streams.Keys + {key}
              && t.state.streams[key] == Stream(c, [])
              && (forall k :: k in s.streams && k != key ==> t.state.streams[k] == s.streams[k])
    ensures p.Guarded? && !Printable(StreamKey(data, uuid)) ==> t.state == s
    ensures var key := StreamKey(data, uuid);
            && |t.out| == 1 && t.out[0].to == c
            && (t.out[0].msg.Registered? <==> Printable(key))
            && (Printable(key) ==> t.out[0].msg == Registered(Streamer, key, Some(EmbedPrefix + JsString(key).value)))
            && (!Printable(key) ==> t.out[0].msg == Error(InvalidFormat))
  {
    var key := StreamKey(data, uuid);
    var bound := s.(clients := s.clients[c := Client(Some(Streamer), Some(key))],
                    streams := s.streams[key := Stream(c, [])]);
    match EmbedUrl(key)
    case Some(url) => Transition(bound, [Out(c, Registered(Streamer, key, Some(url)))])
    case None => Transition(if p.Guarded? then s else bound, [Out(c, Error(InvalidFormat))])
  }

  /** Whether `register-viewer` names a stream that exists. */
  predicate FindsStream(s: State, data: seq<(string, Json)>)
  {
    var requested := Get(data, "streamId");
    Truthy(requested) && !IsReference(requested.value) && requested.value in s.streams
  }

  function RegisterViewer(s: State, c: ClientId, data: seq<(string, Json)>): (t: Transition)
    requires c in s.clients
    ensures !FindsStream(s, data) ==> t == Transition(s, [Out(c, Error(StreamNotFound))])
    ensures FindsStream(s, data) ==>
              var key := Get(data, "streamId").value;
              var stream := s.streams[key];
              && t.state.clients == s.clients[c := Client(Some(Viewer), Some(key))]
              && t.state.streams.Keys == s.streams.Keys
              && t.state.streams[key].streamerId == stream.streamerId
              && (forall v :: v in t.state.streams[key].viewers <==> v in stream.viewers || v == c)
              && (forall k :: k in s.streams && k != key ==> t.state.streams[k] == s.streams[k])
              && t.state.open == s.open
              && 1 <= |t.out|
              && t.out[0] == Out(c, Registered(Viewer, key, None))
              && t.out[1..] == (if Reachable(s, stream.streamerId)
                                then [Out(stream.streamerId, ViewerJoined(c))] else [])
  {
    if !FindsStream(s, data) then
      Transition(s, [Out(c, Error(StreamNotFound))])
    else
      var key := Get(data, "streamId").value;
      var stream := s.streams[key];
      var notify := if Reachable(s, stream.streamerId)
                    then [Out(stream.streamerId, ViewerJoined(c))] else [];
      Transition(
        s.(clients := s.clients[c := Client(Some(Viewer), Some(key))],
           streams := s.streams[key := stream.(viewers := SetAdd(stream.viewers, c))]),
        [Out(c, Registered(Viewer, key, None))] + notify)
  }

  function PayloadKey(kind: RelayKind): string
  {
    match kind
    case Offer => "offer"
    case Answer => "answer"
    case IceCandidate => "candidate"
  }

  function TypeName(kind: RelayKind): string
  {
    match kind
    case Offer => "offer"
    case Answer => "answer"
    case IceCandidate => "ice-candidate"
  }

  /** The relay target: `targetId` names a connection only when it is a string. */
  function Target(data: seq<(string, Json)>): Option<ClientId>
  {
    match Get(data, "targetId")
    case Some(JStr(t)) => Some(t)
    case _ => None
  }

  /** handleOffer, handleAnswer and handleIceCandidate: forward the payload
      property untouched (absent stays absent) to an OPEN target, else drop. */
  function Relay(s: State, c: ClientId, data: seq<(string, Json)>, kind: RelayKind): (t: Transition)
    ensures t.state == s
    ensures |t.out| <= 1
    ensures |t.out| == 1 <==> Target(data).Some? && Reachable(s, Target(data).value)
    ensures |t.out| == 1 ==> t.out[0] == Out(Target(data).value, Relayed(kind, Get(data, PayloadKey(kind)), c))
  {
    var target := Target(data);
    if target.Some? && Reachable(s, target.value) then
      Transition(s, [Out(target.value, Relayed(kind, Get(data, PayloadKey(kind)), c))])
    else Idle(s)
  }

  /** The stream key the caller is bound to, when it has a truthy one. */
  function BoundStream(s: State, c: ClientId): Option<Json>
  {
    if c in s.clients && Truthy(s.clients[c].streamId) then s.clients[c].streamId else None
  }

  /** Whether stop-stream from `c` ends a stream under the policy. */
  predicate Stops(p: Policy, s: State, c: ClientId)
  {
    var key := BoundStream(s, c);
    key.Some? && key.value in s.streams && (p.Guarded? ==> s.streams[key.value].streamerId == c)
  }

  /** The first half of handleStopStream: tell each present, OPEN viewer the
      stream ended, then delete the stream. */
  function EndStream(s: State, key: Json): (t: Transition)
    requires key in s.streams
    ensures !t.crashed && t.state.clients == s.clients && t.state.open == s.open
    ensures t.state.streams.Keys == s.streams.Keys - {key}
    ensures forall k :: k in t.state.streams ==> t.state.streams[k] == s.streams[k]
    ensures forall i :: 0 <= i < |t.out| ==> t.out[i].msg == StreamEnded
    ensures forall v :: v in Recipients(t.out) <==> v in s.streams[key].viewers && Reachable(s, v)
  {
    Transition(s.(streams := s.streams - {key}), Broadcast(s.streams[key].viewers, s))
  }

  /** handleStopStream on the message path. The log line that follows the delete
      interpolates the key; when that throws, the enclosing try answers the
      caller with an error after the broadcast. */
  function StopStream(p: Policy, s: State, c: ClientId): (t: Transition)
    ensures !Stops(p, s, c) ==> t == Idle(s)
    ensures !t.crashed
    ensures Stops(p, s, c) ==>
              var key := BoundStream(s, c).value;
              && t.state.clients == s.clients && t.state.open == s.open
              && t.state.streams.Keys == s.streams.Keys - {key}
              && (forall k :: k in t.state.streams ==> t.state.streams[k] == s.streams[k])
              && (forall v :: v in Recipients(t.out) <==>
                               (v in s.streams[key].viewers && Reachable(s, v)) || (v == c && !Printable(key)))
              && (forall i :: 0 <= i < |t.out| ==>
                    t.out[i].msg == (if i == |t.out| - 1 && !Printable(key) then Error(InvalidFormat) else StreamEnded))
              && (!Printable(key) ==> |t.out| >= 1 && t.out[|t.out| - 1] == Out(c, Error(InvalidFormat)))
  {
    if !Stops(p, s, c) then Idle(s)
    else
      var key := BoundStream(s, c).value;
      var ended := EndStream(s, key);
      if Printable(key) then ended
      else
        var reply := [Out(c, Error(InvalidFormat))];
        RecipientsAppend(ended.out, reply);
        assert Recipients(reply) == {c} by { assert reply[0].to == c; }
        Transition(ended.state, ended.out + reply)
  }

  /** The viewer branch of handleDisconnect: leave the set and tell the streamer.
      `Guarded` tells the streamer only when the stream still lists the viewer. */
  function ViewerLeaves(p: Policy, s: State, c: ClientId, key: Json): (t: Transition)
    ensures !t.crashed
    ensures key !in s.streams ==> t == Idle(s)
    ensures key in s.streams ==>
              var stream := s.streams[key];
              && t.state.clients == s.clients && t.state.open == s.open
              && t.state.streams.Keys == s.streams.Keys
              && (forall k :: k in s.streams && k != key ==> t.state.streams[k] == s.streams[k])
              && t.state.streams[key].streamerId == stream.streamerId
              && (forall v :: v in t.state.streams[key].viewers <==> v in stream.viewers && v != c)
              && (NoDup(stream.viewers) ==> NoDup(t.state.streams[key].viewers))
              && |t.out| <= 1
              && (|t.out| == 1 <==> Reachable(s, stream.streamerId) && (p.AsWritten? || c in stream.viewers))
              && (|t.out| == 1 ==> t.out[0] == Out(stream.streamerId, ViewerLeft(c)))
  {
    if key !in s.streams then Idle(s)
    else
      var stream := s.streams[key];
      var notify := if Reachable(s, stream.streamerId) && (p.AsWritten? || c in stream.viewers)
                    then [Out(stream.streamerId, ViewerLeft(c))] else [];
      Transition(s.(streams := s.streams[key := stream.(viewers := SetRemove(stream.viewers, c))]), notify)
  }

  /** Whether the close of `c` throws out of its event handler: a streamer whose
      stop ends a stream under a key the log line cannot print. */
  predicate Crashes(p: Policy, s: State, c: ClientId)
  {
    && c in s.clients
    && s.clients[c].role == Some(Streamer)
    && Stops(p, s, c)
    && !Printable(BoundStream(s, c).value)
  }

  /** ws.on('close') / handleDisconnect. The socket is no longer OPEN when the
      event fires; the client entry is deleted last, so a handler that throws
      leaves it in place. No try surrounds this handler. */
  function Disconnect(p: Policy, s: State, c: ClientId): (t: Transition)
    ensures c !in t.state.open && t.state.open == s.open - {c}
    ensures t.crashed <==> Crashes(p, s, c)
    ensures !t.crashed ==> t.state.clients == s.clients - {c}
    ensures t.crashed ==> t.state.clients == s.clients
                          && t.state.streams == s.streams - {BoundStream(s, c).value}
  {
    var s0 := s.(open := s.open - {c});
    assert BoundStream(s0, c) == BoundStream(s, c) && (Stops(p, s0, c) <==> Stops(p, s, c));
    if c !in s0.clients then Idle(s0)
    else
      var client := s0.clients[c];
      if client.role == Some(Streamer) && Truthy(client.streamId) then
        if Stops(p, s0, c) && !Printable(BoundStream(s0, c).value) then
          var ended := EndStream(s0, BoundStream(s0, c).value);
          Transition(ended.state, ended.out, true)
        else
          var t := StopStream(p, s0, c);
          Transition(t.state.(clients := t.state.clients - {c}), t.out)
      else
        var t := if client.role == Some(Viewer) && Truthy(client.streamId)
                 then ViewerLeaves(p, s0, c, client.streamId.value) else Idle(s0);
        Transition(t.state.(clients := t.state.clients - {c}), t.out)
  }

  /** handleMessage's switch on `data.type` (compared with ===). The default
      branch logs the type through a template literal, which throws for a type
      that cannot be printed; the enclosing try then answers with an error. */
  function Dispatch(p: Policy, s: State, c: ClientId, data: seq<(string, Json)>, uuid: string): (t: Transition)
    requires c in s.clients
  {
    var ty := Get(data, "type");
    var unassigned := s.clients[c].role.None?;
    if ty == Some(JStr("register-streamer")) then
      if p.Guarded? && !unassigned then Idle(s) else RegisterStreamer(p, s, c, data, uuid)
    else if ty == Some(JStr("register-viewer")) then
      if p.Guarded? && !unassigned then Idle(s) else RegisterViewer(s, c, data)
    else if ty == Some(JStr("offer")) then Relay(s, c, data, Offer)
    else if ty == Some(JStr("answer")) then Relay(s, c, data, Answer)
    else if ty == Some(JStr("ice-candidate")) then Relay(s, c, data, IceCandidate)
    else if ty == Some(JStr("stop-stream")) then StopStream(p, s, c)
    else if ty.Some? && !Printable(ty.value) then Transition(s, [Out(c, Error(InvalidFormat))])
    else Idle(s)
  }

  /** ws.on('message'): JSON.parse, then handleMessage inside one try block. A
      parse failure, or reading `.type` of a `null` document, is answered with an
      error to the sender only. */
  function Receive(p: Policy, s: State, c: ClientId, text: Text, uuid: string): (t: Transition)
  {
    match text
    case Doc(data) =>
      if c !in s.clients then Idle(s)
      else if data.JNull? then Transition(s, [Out(c, Error(InvalidFormat))])
      else if data.JObj? then Dispatch(p, s, c, data.fields, uuid)
      else Idle(s)
    case _ => Transition(s, [Out(c, Error(InvalidFormat))])
  }

  function Step(p: Policy, s: State, e: Event): (t: Transition)
  {
    match e
    case Accept(id) => AcceptClient(s, id)
    case Message(c, text, uuid) => Receive(p, s, c, text, uuid)
    case Closing(id) => Idle(s.(open := s.open - {id}))
    case Close(id) => Disconnect(p, s, id)
  }

  // ----- wire format -----

  function RoleName(r: Role): string
  {
    match r
    case Streamer => "streamer"
    case Viewer => "viewer"
  }

  /** The object JSON.stringify writes for a message; an undefined relay payload
      is left out, as JSON.stringify leaves out undefined properties. */
  function Wire(m: OutMsg): (j: Json)
    ensures j.JObj? && |j.fields| >= 1 && j.fields[0].0 == "type"
  {
    match m
    case Connected(id) => JObj([("type", JStr("connected")), ("clientId", JStr(id))])
    case Registered(role, key, url) =>
      JObj([("type", JStr("registered")), ("role", JStr(RoleName(role))), ("streamId", key)]
           + (if url.Some? then [("embedUrl", JStr(url.value))] else []))
    case Error(msg) => JObj([("type", JStr("error")), ("message", JStr(msg))])
    case Relayed(kind, payload, sender) =>
      JObj([("type", JStr(TypeName(kind)))]
           + (if payload.Some? then [(PayloadKey(kind), payload.value)] else [])
           + [("senderId", JStr(sender))])
    case ViewerJoined(v) => JObj([("type", JStr("viewer-joined")), ("viewerId", JStr(v))])
    case ViewerLeft(v) => JObj([("type", JStr("viewer-left")), ("viewerId", JStr(v))])
    case StreamEnded => JObj([("type", JStr("stream-ended"))])
  }
}
