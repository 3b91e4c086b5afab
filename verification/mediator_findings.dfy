/** Where server.js breaks the registry invariants of `Consistent`, lets one
    connection end another's stream, or lets a peer end the process, each shown
    on a concrete run of the as-written machine, next to the corrected machine
    (`Guarded`) and the property proved of it for every state and event. */
module MediatorFindings {
  import opened Json
  import opened Mediator
  import opened MediatorProperties

  /** Registry invariants: WellFormed; a registered connection's stream id is
      truthy and can be printed by a template literal; every listed viewer is a
      connection registered as a viewer of that very stream; and every stream's
      streamer is a live connection registered as the streamer of that stream.
      The converse of the viewer clause, that a viewer bound to an existing
      stream is listed in it, is not among them: see OrphanedViewerLeftAsWritten. */
  predicate Consistent(s: State)
  {
    WellFormed(s) && BoundToTruthy(s) && KeysPrintable(s) && ViewersListed(s) && StreamersLive(s)
  }

  /** Every stream id a connection is bound to converts in a template literal. */
  predicate KeysPrintable(s: State)
  {
    forall c :: c in s.clients && s.clients[c].streamId.Some? ==> Printable(s.clients[c].streamId.value)
  }

  predicate BoundToTruthy(s: State)
  {
    forall c :: c in s.clients && s.clients[c].role.Some? ==> Truthy(s.clients[c].streamId)
  }

  predicate ViewersListed(s: State)
  {
    forall k, v :: k in s.streams && v in s.streams[k].viewers ==>
      v in s.clients && s.clients[v] == Client(Some(Viewer), Some(k))
  }

  predicate StreamersLive(s: State)
  {
    forall k :: k in s.streams ==>
      s.streams[k].streamerId in s.clients
      && s.clients[s.streams[k].streamerId] == Client(Some(Streamer), Some(k))
  }

  /** An event the environment can produce: connection ids are fresh uuids, and
      so is a generated stream id. */
  predicate Admissible(s: State, e: Event)
  {
    && (e.Accept? ==> e.id !in s.clients)
    && (e.Message? ==> e.freshStreamId != "")
  }

  // ----- the corrected machine keeps the invariants -----

  lemma GuardedStepKeepsConsistent(s: State, e: Event)
    requires Consistent(s) && Admissible(s, e)
    ensures Consistent(Step(Guarded, s, e).state)
  {
    match e
    case Accept(id) => AcceptKeepsConsistent(s, id);
    case Message(c, text, uuid) =>
      if text.Doc? && c in s.clients && text.value.JObj? {
        assert Step(Guarded, s, e) == Dispatch(Guarded, s, c, text.value.fields, uuid);
        GuardedDispatchKeepsConsistent(s, c, text.value.fields, uuid);
      } else {
        assert Step(Guarded, s, e).state == s;
      }
    case Closing(id) => ClosingKeepsConsistent(s, id);
    case Close(c) => GuardedDisconnectKeepsConsistent(s, c);
  }

  lemma AcceptKeepsConsistent(s: State, id: ClientId)
    requires Consistent(s) && id !in s.clients
    ensures Consistent(AcceptClient(s, id).state)
  {
    var t := AcceptClient(s, id).state;
    assert t.clients == s.clients[id := Client(None, None)];
    forall k | k in t.streams ensures s.streams[k].streamerId != id {
      assert s.streams[k].streamerId in s.clients;
    }
    forall k, v | k in t.streams && v in t.streams[k].viewers ensures v != id {
      assert v in s.clients;
    }
  }

  lemma ClosingKeepsConsistent(s: State, id: ClientId)
    requires Consistent(s)
    ensures Consistent(s.(open := s.open - {id}))
  {
  }

  lemma GuardedDispatchKeepsConsistent(s: State, c: ClientId, data: seq<(string, Json)>, uuid: string)
    requires Consistent(s) && c in s.clients && uuid != ""
    ensures Consistent(Dispatch(Guarded, s, c, data, uuid).state)
  {
    DispatchKeepsWellFormed(Guarded, s, c, data, uuid);
    var t := Dispatch(Guarded, s, c, data, uuid);
    var ty := Get(data, "type");
    var unassigned := s.clients[c].role.None?;
    if ty == Some(JStr("register-streamer")) && unassigned {
      assert t == RegisterStreamer(Guarded, s, c, data, uuid);
      RegisterStreamerKeepsConsistent(s, c, data, uuid);
    } else if ty == Some(JStr("register-viewer")) && unassigned {
      assert t == RegisterViewer(s, c, data);
      if FindsStream(s, data) {
        RegisterViewerKeepsConsistent(s, c, data);
      }
    } else if ty == Some(JStr("stop-stream")) {
      assert t == StopStream(Guarded, s, c);
      RemovingStreamKeepsConsistent(s, BoundStream(s, c));
    } else {
      assert t.state == s;
    }
  }

  lemma RegisterStreamerKeepsConsistent(s: State, c: ClientId, data: seq<(string, Json)>, uuid: string)
    requires Consistent(s) && c in s.clients && s.clients[c].role.None? && uuid != ""
    ensures Consistent(RegisterStreamer(Guarded, s, c, data, uuid).state)
  {
    var t := RegisterStreamer(Guarded, s, c, data, uuid).state;
    var key := StreamKey(data, uuid);
    if !Printable(key) { return; }
    assert t == Bind(s, c, key);
    assert Truthy(Some(key));
    BindKeepsListed(s, c, key);
    BindKeepsLive(s, c, key);
  }

  /** The registries once `c` is the streamer of a fresh, empty stream `key`. */
  function Bind(s: State, c: ClientId, key: Json): State
  {
    s.(clients := s.clients[c := Client(Some(Streamer), Some(key))], streams := s.streams[key := Stream(c, [])])
  }

  lemma BindKeepsListed(s: State, c: ClientId, key: Json)
    requires ViewersListed(s) && c in s.clients && s.clients[c].role.None?
    ensures ViewersListed(Bind(s, c, key))
  {
    var t := Bind(s, c, key);
    forall k, v | k in t.streams && v in t.streams[k].viewers
      ensures v in t.clients && t.clients[v] == Client(Some(Viewer), Some(k))
    {
      assert k != key;
      assert s.clients[v].role == Some(Viewer);
    }
  }

  lemma BindKeepsLive(s: State, c: ClientId, key: Json)
    requires StreamersLive(s) && c in s.clients && s.clients[c].role.None?
    ensures StreamersLive(Bind(s, c, key))
  {
    var t := Bind(s, c, key);
    forall k | k in t.streams
      ensures t.streams[k].streamerId in t.clients
              && t.clients[t.streams[k].streamerId] == Client(Some(Streamer), Some(k))
    {
      if k != key {
        assert s.clients[s.streams[k].streamerId].role == Some(Streamer);
      }
    }
  }

  lemma RegisterViewerKeepsConsistent(s: State, c: ClientId, data: seq<(string, Json)>)
    requires Consistent(s) && c in s.clients && s.clients[c].role.None? && FindsStream(s, data)
    ensures Consistent(RegisterViewer(s, c, data).state)
  {
    var t := RegisterViewer(s, c, data).state;
    var key := Get(data, "streamId").value;
    forall k, v | k in t.streams && v in t.streams[k].viewers
      ensures v in t.clients && t.clients[v] == Client(Some(Viewer), Some(k))
    {
      if v != c {
        assert v in s.streams[k].viewers;
      }
    }
    forall k | k in t.streams
      ensures t.streams[k].streamerId in t.clients
              && t.clients[t.streams[k].streamerId] == Client(Some(Streamer), Some(k))
    {
      assert s.clients[s.streams[k].streamerId].role == Some(Streamer);
    }
  }

  /** Deleting a stream (or none) keeps the invariants. */
  lemma RemovingStreamKeepsConsistent(s: State, key: Option<Json>)
    requires Consistent(s)
    ensures key.Some? ==> Consistent(s.(streams := s.streams - {key.value}))
  {
  }

  lemma GuardedDisconnectKeepsConsistent(s: State, c: ClientId)
    requires Consistent(s)
    ensures Consistent(Disconnect(Guarded, s, c).state)
  {
    DisconnectKeepsWellFormed(Guarded, s, c);
    if c in s.clients {
      var client := s.clients[c];
      if client.role == Some(Streamer) {
        StreamerLeavesConsistent(s, c);
      } else if client.role == Some(Viewer) {
        ViewerLeavesConsistent(s, c);
      } else {
        match client.role {
          case None => UnassignedLeavesConsistent(s, c);
          case Some(r) => match r { case Streamer => case Viewer => }
        }
      }
    }
  }

  lemma StreamerLeavesConsistent(s: State, c: ClientId)
    requires Consistent(s) && c in s.clients && s.clients[c].role == Some(Streamer)
    ensures Consistent(Disconnect(Guarded, s, c).state)
  {
    DisconnectKeepsWellFormed(Guarded, s, c);
    var key := s.clients[c].streamId.value;
    var s0 := s.(open := s.open - {c});
    var stopped := if Stops(Guarded, s0, c) then s.streams - {key} else s.streams;
    assert !Crashes(Guarded, s, c);
    var t := Disconnect(Guarded, s, c).state;
    assert t.streams == stopped;
    assert t.clients == s.clients - {c};
    assert key in s.streams && s.streams[key].streamerId == c ==> Stops(Guarded, s0, c);
    StreamerGone(s, c, key, t);
  }

  /** The streamer `c`, bound to `key`, is deleted along with any stream it owns. */
  lemma StreamerGone(s: State, c: ClientId, key: Json, t: State)
    requires Consistent(s) && c in s.clients && s.clients[c] == Client(Some(Streamer), Some(key))
    requires t.clients == s.clients - {c} && t.streams.Keys <= s.streams.Keys
    requires forall k :: k in t.streams ==> t.streams[k] == s.streams[k]
    requires key in t.streams ==> t.streams[key].streamerId != c
    requires WellFormed(t)
    ensures Consistent(t)
  {
    assert BoundToTruthy(t) && KeysPrintable(t);
    StreamerGoneListed(s, c, key, t);
    StreamerGoneLive(s, c, key, t);
  }

  lemma StreamerGoneListed(s: State, c: ClientId, key: Json, t: State)
    requires ViewersListed(s) && c in s.clients && s.clients[c] == Client(Some(Streamer), Some(key))
    requires t.clients == s.clients - {c} && t.streams.Keys <= s.streams.Keys
    requires forall k :: k in t.streams ==> t.streams[k] == s.streams[k]
    ensures ViewersListed(t)
  {
    forall k, v | k in t.streams && v in t.streams[k].viewers
      ensures v in t.clients && t.clients[v] == Client(Some(Viewer), Some(k))
    {
      assert v in s.streams[k].viewers;
    }
  }

  lemma StreamerGoneLive(s: State, c: ClientId, key: Json, t: State)
    requires StreamersLive(s) && c in s.clients && s.clients[c] == Client(Some(Streamer), Some(key))
    requires t.clients == s.clients - {c} && t.streams.Keys <= s.streams.Keys
    requires forall k :: k in t.streams ==> t.streams[k] == s.streams[k]
    requires key in t.streams ==> t.streams[key].streamerId != c
    ensures StreamersLive(t)
  {
    forall k | k in t.streams
      ensures t.streams[k].streamerId != c
    {
      assert s.clients[s.streams[k].streamerId] == Client(Some(Streamer), Some(k));
    }
  }

  lemma ViewerLeavesConsistent(s: State, c: ClientId)
    requires Consistent(s) && c in s.clients && s.clients[c].role == Some(Viewer)
    ensures Consistent(Disconnect(Guarded, s, c).state)
  {
    DisconnectKeepsWellFormed(Guarded, s, c);
    var key := s.clients[c].streamId.value;
    var s0 := s.(open := s.open - {c});
    var left := ViewerLeaves(Guarded, s0, c, key).state;
    var t := Disconnect(Guarded, s, c).state;
    assert t == left.(clients := left.clients - {c});
    if key in s.streams {
      var streams' := s.streams[key := s.streams[key].(viewers := SetRemove(s.streams[key].viewers, c))];
      assert t.streams == streams';
      ViewerGoneListed(s, c, key, t);
      ViewerGoneLive(s, c, key, t);
    } else {
      assert t.streams == s.streams;
      ViewerGoneListed(s, c, key, t);
      ViewerGoneLive(s, c, key, t);
    }
  }

  /** After the viewer `c` of `key` leaves, every listed viewer is still registered. */
  lemma ViewerGoneListed(s: State, c: ClientId, key: Json, t: State)
    requires ViewersListed(s) && c in s.clients && s.clients[c] == Client(Some(Viewer), Some(key))
    requires t.clients == s.clients - {c} && t.streams.Keys == s.streams.Keys
    requires forall k :: k in t.streams && k != key ==> t.streams[k] == s.streams[k]
    requires key in t.streams ==> forall v :: v in t.streams[key].viewers <==> v in s.streams[key].viewers && v != c
    ensures ViewersListed(t)
  {
    forall k, v | k in t.streams && v in t.streams[k].viewers
      ensures v in t.clients && t.clients[v] == Client(Some(Viewer), Some(k))
    {
      assert v in s.streams[k].viewers && v != c;
    }
  }

  lemma ViewerGoneLive(s: State, c: ClientId, key: Json, t: State)
    requires StreamersLive(s) && c in s.clients && s.clients[c].role == Some(Viewer)
    requires t.clients == s.clients - {c} && t.streams.Keys == s.streams.Keys
    requires forall k :: k in t.streams ==> t.streams[k].streamerId == s.streams[k].streamerId
    ensures StreamersLive(t)
  {
    forall k | k in t.streams
      ensures t.streams[k].streamerId in t.clients
              && t.clients[t.streams[k].streamerId] == Client(Some(Streamer), Some(k))
    {
      assert s.streams[k].streamerId != c;
    }
  }

  lemma UnassignedLeavesConsistent(s: State, c: ClientId)
    requires Consistent(s) && c in s.clients && s.clients[c].role.None?
    ensures Consistent(Disconnect(Guarded, s, c).state)
  {
    DisconnectKeepsWellFormed(Guarded, s, c);
    var t := Disconnect(Guarded, s, c).state;
    assert t.clients == s.clients - {c} && t.streams == s.streams;
  }

  /** The connection an event comes from. */
  function Actor(e: Event): ClientId
  {
    match e
    case Accept(id) => id
    case Message(c, _, _) => c
    case Closing(id) => id
    case Close(id) => id
  }

  predicate RegistersStreamer(e: Event)
  {
    e.Message? && e.text.Doc? && e.text.value.JObj?
    && Get(e.text.value.fields, "type") == Some(JStr("register-streamer"))
  }

  /** Corrected: a stream is ended only by its own streamer. Apart from a
      `register-streamer` that takes over the key, no event from any other
      connection removes a stream or changes its streamer. */
  lemma GuardedOnlyOwnerEndsStream(s: State, e: Event, k: Json)
    requires k in s.streams && s.streams[k].streamerId != Actor(e) && !RegistersStreamer(e)
    ensures var t := Step(Guarded, s, e);
            k in t.state.streams && t.state.streams[k].streamerId == s.streams[k].streamerId
  {
    match e
    case Accept(id) =>
    case Message(c, text, uuid) =>
      if text.Doc? && c in s.clients && text.value.JObj? {
        assert Step(Guarded, s, e) == Dispatch(Guarded, s, c, text.value.fields, uuid);
        GuardedDispatchKeepsOthers(s, c, text.value.fields, uuid, k);
      }
    case Closing(id) =>
    case Close(c) =>
      var s0 := s.(open := s.open - {c});
      if c in s.clients && Stops(Guarded, s0, c) {
        assert BoundStream(s0, c).value != k;
      }
  }

  lemma GuardedDispatchKeepsOthers(s: State, c: ClientId, data: seq<(string, Json)>, uuid: string, k: Json)
    requires c in s.clients && k in s.streams && s.streams[k].streamerId != c
    requires Get(data, "type") != Some(JStr("register-streamer"))
    ensures var t := Dispatch(Guarded, s, c, data, uuid);
            k in t.state.streams && t.state.streams[k].streamerId == s.streams[k].streamerId
  {
    var t := Dispatch(Guarded, s, c, data, uuid);
    var ty := Get(data, "type");
    if ty == Some(JStr("register-viewer")) && s.clients[c].role.None? {
      assert t == RegisterViewer(s, c, data);
    } else if ty == Some(JStr("stop-stream")) {
      assert t == StopStream(Guarded, s, c);
      if Stops(Guarded, s, c) {
        assert BoundStream(s, c).value != k;
      }
    } else {
      assert t.state == s;
    }
  }

  // ----- concrete runs of the as-written machine -----

  const Cam := JStr("cam")

  /** Streamer "S" owns "cam", watched by viewer "V"; both sockets are OPEN. */
  function Watched(): (s: State)
    ensures Consistent(s)
  {
    var s := State(map["S" := Client(Some(Streamer), Some(Cam)), "V" := Client(Some(Viewer), Some(Cam))],
                   map[Cam := Stream("S", ["V"])], {"S", "V"});
    assert forall k, v :: k in s.streams && v in s.streams[k].viewers ==> k == Cam && v == "V";
    s
  }

  /** handleStopStream never checks who is asking: the viewer's stop-stream ends
      the stream of a streamer that is still live, and "V" itself is told. */
  lemma ViewerEndsStreamAsWritten()
    ensures var s := Watched();
            var t := Step(AsWritten, s, Msg("V", StopStreamRequest(), "u"));
            && t.state == s.(streams := s.streams - {Cam})
            && "S" in t.state.clients && t.state.clients["S"] == Client(Some(Streamer), Some(Cam))
            && t.out == [Out("V", StreamEnded)]
            && Step(Guarded, s, Msg("V", StopStreamRequest(), "u")) == Transition(s, [])
  {
    var s := Watched();
    StopStreamStep(AsWritten, s, "V", "u");
    StopStreamStep(Guarded, s, "V", "u");
    assert BoundStream(s, "V") == Some(Cam);
    assert Stops(AsWritten, s, "V") && !Stops(Guarded, s, "V");
    assert Reachable(s, "V");
    assert Broadcast(["V"], s) == [Out("V", StreamEnded)];
  }

  /** Under the guarded policy a connection that already has a role cannot
      register again. */
  lemma GuardedRefusesSecondRegistration(s: State, c: ClientId, data: seq<(string, Json)>, uuid: string)
    requires c in s.clients && s.clients[c].role.Some?
    requires Get(data, "type") in {Some(JStr("register-streamer")), Some(JStr("register-viewer"))}
    ensures Step(Guarded, s, Msg(c, data, uuid)) == Transition(s, [])
  {
    assert Step(Guarded, s, Msg(c, data, uuid)) == Dispatch(Guarded, s, c, data, uuid);
  }

  /** Closing a streamer whose key was taken over by another connection: the
      source's handleDisconnect deletes the stream under that key, which now
      belongs to someone else; the corrected machine leaves it alone. */
  lemma DisplacedCloseDeletes(s: State, c: ClientId, key: Json)
    requires c in s.clients && s.clients[c] == Client(Some(Streamer), Some(key)) && Truthy(Some(key))
    requires key in s.streams && s.streams[key].streamerId != c
    ensures key !in Step(AsWritten, s, Close(c)).state.streams
    ensures var g := Step(Guarded, s, Close(c)).state;
            key in g.streams && g.streams[key] == s.streams[key]
  {
    var s0 := s.(open := s.open - {c});
    assert Stops(AsWritten, s0, c);
    assert !Stops(Guarded, s0, c);
  }

  /** The run of Watched with a third, unassigned connection "T". */
  function Contested(): (s: State)
    ensures "T" in s.clients && s.clients["T"].role.None?
    ensures "S" in s.clients && Cam in s.streams
    ensures s.clients["S"] == Client(Some(Streamer), Some(Cam)) && s.streams[Cam].streamerId == "S"
  {
    Watched().(clients := Watched().clients["T" := Client(None, None)], open := Watched().open + {"T"})
  }

  function TakeOverCam(): seq<(string, Json)>
  {
    [("type", JStr("register-streamer")), ("streamId", Cam)]
  }

  /** register-streamer never checks whether the key is taken: "T" takes
      over "cam", and "S" is still bound to it. */
  lemma TakeOverAsWritten()
    ensures var t := Step(AsWritten, Contested(), Msg("T", TakeOverCam(), "u")).state;
            && t.clients["S"] == Client(Some(Streamer), Some(Cam))
            && t.clients["T"] == Client(Some(Streamer), Some(Cam))
            && Cam in t.streams && t.streams[Cam] == Stream("T", [])
  {
    var data := TakeOverCam();
    GetDistinct(data, 0);
    GetDistinct(data, 1);
  }

  /** Re-registering "cam" hands it to "T"; when the displaced streamer "S"
      disconnects, handleDisconnect's stop-stream deletes T's stream. */
  lemma DisplacedStreamerEndsTakeoverAsWritten()
    ensures var taken := Step(AsWritten, Contested(), Msg("T", TakeOverCam(), "u")).state;
            && taken.streams[Cam].streamerId == "T"
            && Cam !in Step(AsWritten, taken, Close("S")).state.streams
            && Step(AsWritten, taken, Close("S")).state.clients["T"] == Client(Some(Streamer), Some(Cam))
            && Cam in Step(Guarded, taken, Close("S")).state.streams
  {
    TakeOverAsWritten();
    var taken := Step(AsWritten, Contested(), Msg("T", TakeOverCam(), "u")).state;
    DisplacedCloseDeletes(taken, "S", Cam);
  }

  /** Besides the run of Watched, "S2" owns an empty "cam2". */
  function TwoStreams(): (s: State)
    ensures Consistent(s)
  {
    var s := State(map["S" := Client(Some(Streamer), Some(Cam)), "V" := Client(Some(Viewer), Some(Cam)),
                       "S2" := Client(Some(Streamer), Some(JStr("cam2")))],
                   map[Cam := Stream("S", ["V"]), JStr("cam2") := Stream("S2", [])], {"S", "V"});
    assert forall k, v :: k in s.streams && v in s.streams[k].viewers ==> k == Cam && v == "V";
    s
  }

  function JoinCam2(): seq<(string, Json)>
  {
    [("type", JStr("register-viewer")), ("streamId", JStr("cam2"))]
  }

  lemma JoinCam2Finds()
    ensures Get(JoinCam2(), "type") == Some(JStr("register-viewer"))
    ensures Get(JoinCam2(), "streamId") == Some(JStr("cam2"))
    ensures FindsStream(TwoStreams(), JoinCam2())
  {
    GetDistinct(JoinCam2(), 0);
    GetDistinct(JoinCam2(), 1);
  }

  /** handleRegisterViewer never checks an earlier registration: "V" moves to
      "cam2" but is still listed as a viewer of "cam". */
  lemma ViewerInTwoStreamsAsWritten()
    ensures var t := Step(AsWritten, TwoStreams(), Msg("V", JoinCam2(), "u"));
            && Cam in t.state.streams && "V" in t.state.streams[Cam].viewers
            && JStr("cam2") in t.state.streams && "V" in t.state.streams[JStr("cam2")].viewers
            && !Consistent(t.state)
            && Step(Guarded, TwoStreams(), Msg("V", JoinCam2(), "u")).state == TwoStreams()
  {
    var s := TwoStreams();
    var data := JoinCam2();
    JoinCam2Finds();
    RegisterViewerStep(AsWritten, s, "V", data, "u");
    var t := RegisterViewer(s, "V", data);
    assert t.state.clients["V"] == Client(Some(Viewer), Some(JStr("cam2")));
    assert t.state.streams[Cam] == s.streams[Cam];
    assert "V" in t.state.streams[Cam].viewers;
    assert !ViewersListed(t.state);
    GuardedRefusesSecondRegistration(s, "V", data, "u");
  }

  // ----- a stream id no template literal can print -----

  /** An object with its own `toString` member: interpolating it throws. */
  const Unprintable := JObj([("toString", JNum(1))])

  /** A single connection "T", OPEN and unassigned. */
  function Lone(): State
  {
    State(map["T" := Client(None, None)], map[], {"T"})
  }

  function RegisterUnprintable(): seq<(string, Json)>
  {
    [("type", JStr("register-streamer")), ("streamId", Unprintable)]
  }

  lemma RegisterUnprintableKey()
    ensures Get(RegisterUnprintable(), "type") == Some(JStr("register-streamer"))
    ensures StreamKey(RegisterUnprintable(), "u") == Unprintable && !Printable(Unprintable)
  {
    GetDistinct(RegisterUnprintable(), 0);
    GetDistinct(RegisterUnprintable(), 1);
    assert Get(Unprintable.fields, "toString") == Some(JNum(1));
  }

  /** "T" registers with an unprintable stream id: it is bound and owns the
      stream, yet is told of an error. When its socket closes, the stop inside
      handleDisconnect throws with no try around it, and the process ends with
      "T" still registered. The corrected machine refuses the key up front. */
  lemma UnprintableKeyCrashesAsWritten()
    ensures var t1 := Step(AsWritten, Lone(), Msg("T", RegisterUnprintable(), "u"));
            var t2 := Step(AsWritten, t1.state, Close("T"));
            && t1.out == [Out("T", Error(InvalidFormat))]
            && t1.state.clients["T"] == Client(Some(Streamer), Some(Unprintable))
            && Unprintable in t1.state.streams
            && t2.crashed && "T" in t2.state.clients
            && Step(Guarded, Lone(), Msg("T", RegisterUnprintable(), "u")) == Transition(Lone(), [Out("T", Error(InvalidFormat))])
  {
    RegisterUnprintableKey();
    var t1 := Step(AsWritten, Lone(), Msg("T", RegisterUnprintable(), "u"));
    assert t1 == RegisterStreamer(AsWritten, Lone(), "T", RegisterUnprintable(), "u");
    assert Step(Guarded, Lone(), Msg("T", RegisterUnprintable(), "u"))
           == RegisterStreamer(Guarded, Lone(), "T", RegisterUnprintable(), "u");
    assert Crashes(AsWritten, t1.state, "T");
  }

  /** Corrected: from registries whose stream ids all print, no event ends the
      process, and the registries stay that way. */
  lemma GuardedNeverCrashes(s: State, e: Event)
    requires KeysPrintable(s)
    ensures !Step(Guarded, s, e).crashed
    ensures KeysPrintable(Step(Guarded, s, e).state)
  {
    match e
    case Accept(id) =>
    case Message(c, text, uuid) =>
      if text.Doc? && c in s.clients && text.value.JObj? {
        assert Step(Guarded, s, e) == Dispatch(Guarded, s, c, text.value.fields, uuid);
        GuardedDispatchKeepsPrintable(s, c, text.value.fields, uuid);
      }
    case Closing(id) =>
    case Close(c) =>
      assert !Crashes(Guarded, s, c);
      assert Step(Guarded, s, e).state.clients == s.clients - {c};
  }

  lemma GuardedDispatchKeepsPrintable(s: State, c: ClientId, data: seq<(string, Json)>, uuid: string)
    requires KeysPrintable(s) && c in s.clients
    ensures KeysPrintable(Dispatch(Guarded, s, c, data, uuid).state)
  {
    var t := Dispatch(Guarded, s, c, data, uuid);
    var ty := Get(data, "type");
    var unassigned := s.clients[c].role.None?;
    if ty == Some(JStr("register-streamer")) && unassigned {
      assert t == RegisterStreamer(Guarded, s, c, data, uuid);
    } else if ty == Some(JStr("register-viewer")) && unassigned {
      assert t == RegisterViewer(s, c, data);
      if FindsStream(s, data) {
        var key := Get(data, "streamId").value;
        assert Printable(key) by { assert key.JBool? || key.JNum? || key.JStr?; }
        assert t.state.clients == s.clients[c := Client(Some(Viewer), Some(key))];
      }
    } else if ty == Some(JStr("stop-stream")) {
      assert t == StopStream(Guarded, s, c);
    } else {
      assert t.state.clients == s.clients;
    }
  }

  // ----- a viewer bound to a stream that no longer lists it -----

  /** Contested after "S" has stopped "cam". */
  function AfterStop(): State
  {
    Contested().(streams := map[])
  }

  /** AfterStop once "T" has registered "cam" afresh. */
  function AfterTakeOver(): State
  {
    AfterStop().(clients := AfterStop().clients["T" := Client(Some(Streamer), Some(Cam))],
                 streams := map[Cam := Stream("T", [])])
  }

  lemma StopCamStep(p: Policy)
    ensures Step(p, Contested(), Msg("S", StopStreamRequest(), "u")).state == AfterStop()
  {
    StopStreamStep(p, Contested(), "S", "u");
    assert BoundStream(Contested(), "S") == Some(Cam);
  }

  lemma TakeOverStep(p: Policy)
    ensures Step(p, AfterStop(), Msg("T", TakeOverCam(), "u")).state == AfterTakeOver()
  {
    var data := TakeOverCam();
    GetDistinct(data, 0);
    GetDistinct(data, 1);
    assert AfterStop().clients["T"].role.None?;
    assert Step(p, AfterStop(), Msg("T", data, "u")) == RegisterStreamer(p, AfterStop(), "T", data, "u");
  }

  lemma AfterTakeOverConsistent()
    ensures Consistent(AfterTakeOver())
  {
    ContestedConsistent();
    StopCamStep(Guarded);
    GuardedStepKeepsConsistent(Contested(), Msg("S", StopStreamRequest(), "u"));
    TakeOverStep(Guarded);
    GuardedStepKeepsConsistent(AfterStop(), Msg("T", TakeOverCam(), "u"));
  }

  lemma OrphanCloses(p: Policy)
    ensures Step(p, AfterTakeOver(), Close("V")).out
            == if p.AsWritten? then [Out("T", ViewerLeft("V"))] else []
  {
    var s := AfterTakeOver();
    assert s.clients["V"] == Client(Some(Viewer), Some(Cam));
    assert Reachable(s.(open := s.open - {"V"}), "T");
  }

  /** The stream "cam" of "S" ends while "V" still watches; "T" then registers
      "cam" afresh, under either machine. "V" stays bound to "cam" but is not
      listed in T's stream, and every invariant of `Consistent` still holds.
      When "V" closes, the source tells "T" that a viewer it never had has left;
      the corrected machine says nothing. */
  lemma OrphanedViewerLeftAsWritten()
    ensures Step(AsWritten, Contested(), Msg("S", StopStreamRequest(), "u")).state == AfterStop()
    ensures Step(Guarded, Contested(), Msg("S", StopStreamRequest(), "u")).state == AfterStop()
    ensures Step(AsWritten, AfterStop(), Msg("T", TakeOverCam(), "u")).state == AfterTakeOver()
    ensures Step(Guarded, AfterStop(), Msg("T", TakeOverCam(), "u")).state == AfterTakeOver()
    ensures Consistent(AfterTakeOver())
    ensures AfterTakeOver().clients["V"] == Client(Some(Viewer), Some(Cam))
    ensures Cam in AfterTakeOver().streams && "V" !in AfterTakeOver().streams[Cam].viewers
    ensures Step(AsWritten, AfterTakeOver(), Close("V")).out == [Out("T", ViewerLeft("V"))]
    ensures Step(Guarded, AfterTakeOver(), Close("V")).out == []
  {
    StopCamStep(AsWritten);
    StopCamStep(Guarded);
    TakeOverStep(AsWritten);
    TakeOverStep(Guarded);
    AfterTakeOverConsistent();
    OrphanCloses(AsWritten);
    OrphanCloses(Guarded);
  }

  lemma ContestedConsistent()
    ensures Consistent(Contested())
  {
    var s := Contested();
    assert forall k, v :: k in s.streams && v in s.streams[k].viewers ==> k == Cam && v == "V";
  }

  /** Corrected: viewer-left goes only to the streamer of a stream that lists
      the departing viewer. */
  lemma GuardedViewerLeftOnlyListed(s: State, e: Event)
    ensures var t := Step(Guarded, s, e);
            forall i :: 0 <= i < |t.out| && t.out[i].msg.ViewerLeft? ==>
              exists k :: k in s.streams && s.streams[k].streamerId == t.out[i].to
                          && t.out[i].msg.viewerId in s.streams[k].viewers
  {
    var t := Step(Guarded, s, e);
    match e
    case Accept(id) =>
    case Message(c, text, uuid) =>
      if text.Doc? && c in s.clients && text.value.JObj? {
        assert t == Dispatch(Guarded, s, c, text.value.fields, uuid);
        NoViewerLeftFromMessages(s, c, text.value.fields, uuid);
      }
    case Closing(id) =>
    case Close(c) =>
      var s0 := s.(open := s.open - {c});
      if c in s.clients && s.clients[c].role == Some(Viewer) && Truthy(s.clients[c].streamId) {
        var key := s.clients[c].streamId.value;
        if key in s.streams && |t.out| == 1 {
          assert t.out == ViewerLeaves(Guarded, s0, c, key).out;
          assert t.out[0] == Out(s.streams[key].streamerId, ViewerLeft(c)) && c in s.streams[key].viewers;
        }
      }
  }

  /** No message handler sends viewer-left. */
  lemma NoViewerLeftFromMessages(s: State, c: ClientId, data: seq<(string, Json)>, uuid: string)
    requires c in s.clients
    ensures var t := Dispatch(Guarded, s, c, data, uuid);
            forall i :: 0 <= i < |t.out| ==> !t.out[i].msg.ViewerLeft?
  {
    var t := Dispatch(Guarded, s, c, data, uuid);
    var ty := Get(data, "type");
    if ty == Some(JStr("register-viewer")) && s.clients[c].role.None? && FindsStream(s, data) {
      assert t == RegisterViewer(s, c, data);
      forall i | 0 <= i < |t.out| ensures !t.out[i].msg.ViewerLeft? {
        if i > 0 { assert t.out[i] == t.out[1..][i - 1]; }
      }
    }
  }
}
