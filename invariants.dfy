/**
 * What every reachable state of the activity satisfies, and the proof that
 * `Start` establishes it and every delivered event keeps it.
 */
module Invariants {
  import opened Wrappers
  import opened Status
  import opened Messages
  import opened Negotiation

  /** The `sdp` of an emitted signalling message whose `type` is `kind`. */
  function SentSdp(e: Effect, kind: string): Option<string> {
    if e.Emit? && e.event == "message" && e.payload.Json? && GetString(e.payload.obj, "type") == Some(kind)
    then GetString(e.payload.obj, "sdp")
    else None
  }

  /** The payload is addressed to the configured room. */
  predicate Addressed(p: Payload) {
    match p
    case RoomName(name) => name == Room
    case Json(obj) => GetString(obj, "room") == Some(Room)
  }

  /** What must already be in the log (`prefix`) when `e` is appended. */
  predicate Fits(prefix: seq<Effect>, e: Effect) {
    && (e.Emit? ==> Addressed(e.payload))
    && (SentSdp(e, "answer").Some? ==> SetLocal(SentSdp(e, "answer").value, SendAnswerOnSuccess) in prefix)
    && (SentSdp(e, "offer").Some? ==>
          prefix != [] && prefix[|prefix| - 1] == SetLocal(SentSdp(e, "offer").value, NoOp))
    && (e.SetLocal? && e.observer == SendAnswerOnSuccess ==> CreateAnswer in prefix)
    && (e.SetLocal? && e.observer == NoOp ==> CreateOffer in prefix)
    && (e == CreateAnswer ==> OfferApplied(prefix))
  }

  /** Every effect of the log fits what came before it. */
  predicate Ordered(log: seq<Effect>)
    decreases |log|
  {
    log == [] || (Ordered(log[..|log| - 1]) && Fits(log[..|log| - 1], log[|log| - 1]))
  }

  function Delta(e: Effect, res: Resource): int {
    if e == Create(res) then 1 else if e == Dispose(res) then -1 else 0
  }

  /** How many objects of kind `res` are alive after the log. */
  function Live(log: seq<Effect>, res: Resource): int
    decreases |log|
  {
    if log == [] then 0 else Live(log[..|log| - 1], res) + Delta(log[|log| - 1], res)
  }

  /** After every prefix of the log, zero or one object of kind `res` is alive. */
  predicate Balanced(log: seq<Effect>, res: Resource)
    decreases |log|
  {
    log == [] || (Balanced(log[..|log| - 1], res) && 0 <= Live(log, res) <= 1)
  }

  /** Reconnects scheduled since the last peer connection was disposed (the last restart). */
  function SinceReset(log: seq<Effect>): nat
    decreases |log|
  {
    if log == [] then 0
    else if log[|log| - 1] == Dispose(Peer) then 0
    else if log[|log| - 1].ScheduleReconnect? then SinceReset(log[..|log| - 1]) + 1
    else SinceReset(log[..|log| - 1])
  }

  predicate LogOk(log: seq<Effect>) {
    Ordered(log) && Balanced(log, Factory) && Balanced(log, Peer)
  }

  /** The invariant of the activity between two events. */
  predicate Valid(m: Machine) {
    && 0 <= m.retryCounter < MaxRetry
    && (m.isStarted ==> m.isChannelReady)
    && Reportable(m.state)
    && ShowsState(m.status, m.state)
    && LogOk(m.log)
    && Live(m.log, Factory) == 1 && Live(m.log, Peer) == 1
    && SinceReset(m.log) == m.retryCounter
  }

  /** Appending one effect: how each summary of the log changes. */
  lemma Extend(log: seq<Effect>, e: Effect)
    requires LogOk(log) && Fits(log, e)
    requires 0 <= Live(log, Factory) + Delta(e, Factory) <= 1
    requires 0 <= Live(log, Peer) + Delta(e, Peer) <= 1
    ensures LogOk(log + [e])
    ensures Live(log + [e], Factory) == Live(log, Factory) + Delta(e, Factory)
    ensures Live(log + [e], Peer) == Live(log, Peer) + Delta(e, Peer)
    ensures SinceReset(log + [e]) ==
      if e == Dispose(Peer) then 0
      else if e.ScheduleReconnect? then SinceReset(log) + 1
      else SinceReset(log)
  {
    assert (log + [e])[..|log|] == log;
  }

  /** An effect that creates, disposes and schedules nothing keeps the invariant. */
  lemma PerformKeeps(m: Machine, e: Effect)
    requires Valid(m) && Fits(m.log, e)
    requires Delta(e, Factory) == 0 && Delta(e, Peer) == 0
    requires !e.ScheduleReconnect?
    ensures Valid(Perform(m, e))
  {
    Extend(m.log, e);
  }

  lemma MaybeStartKeeps(m: Machine)
    requires Valid(m)
    ensures Valid(MaybeStart(m))
  {
    if !m.isStarted && m.isChannelReady && m.isInitiator {
      PerformKeeps(ChangeState(m.(isStarted := true), Offering), CreateOffer);
    }
  }

  /** The log is well formed and holds `f` live factories and `p` live peer connections. */
  predicate Holds(m: Machine, f: int, p: int) {
    LogOk(m.log) && Live(m.log, Factory) == f && Live(m.log, Peer) == p
  }

  /** An effect that creates, disposes and schedules nothing changes no summary of the log. */
  lemma Plain(m: Machine, e: Effect, f: int, p: int)
    requires Holds(m, f, p) && 0 <= f <= 1 && 0 <= p <= 1 && Fits(m.log, e)
    requires Delta(e, Factory) == 0 && Delta(e, Peer) == 0 && !e.ScheduleReconnect? && e != Dispose(Peer)
    ensures Holds(Perform(m, e), f, p) && SinceReset(Perform(m, e).log) == SinceReset(m.log)
  {
    Extend(m.log, e);
  }

  lemma InitializeVariablesDisposes(m: Machine)
    requires Holds(m, 1, 1)
    ensures Holds(InitializeVariables(m), 0, 0) && SinceReset(InitializeVariables(m).log) == 0
  {
    var m1 := m.(needRetry := false, retryCounter := 0,
                 isInitiator := false, isChannelReady := false, isStarted := false);
    Plain(m1, DisconnectSocket, 1, 1);
    var m2 := Perform(m1, DisconnectSocket);
    Extend(m2.log, Dispose(Peer));
    var m3 := Perform(m2, Dispose(Peer));
    Extend(m3.log, Dispose(Factory));
  }

  lemma CameraPlain(m: Machine, f: int, p: int)
    requires Holds(m, f, p) && 0 <= f <= 1 && 0 <= p <= 1
    ensures Holds(CreateVideoTrackFromCameraAndShowIt(m), f, p)
    ensures SinceReset(CreateVideoTrackFromCameraAndShowIt(m).log) == SinceReset(m.log)
  {
    match Camera.SelectCamera(m.devices)
    case Some(d) =>
      assert CreateVideoTrackFromCameraAndShowIt(m) == Perform(m, StartCapture(d));
      Plain(m, StartCapture(d), f, p);
    case None =>
      assert CreateVideoTrackFromCameraAndShowIt(m) == m;
  }

  /** Factory, camera, peer connection and socket, in the order `start` and `restart` build them. */
  lemma BuildCreates(m: Machine)
    requires Holds(m, 0, 0)
    ensures var r := ConnectToSignallingServer(InitializePeerConnections(
              CreateVideoTrackFromCameraAndShowIt(InitializePeerConnectionFactory(m))));
            Holds(r, 1, 1) && SinceReset(r.log) == SinceReset(m.log)
  {
    CreateOne(m, Factory);
    BuildAfterFactory(InitializePeerConnectionFactory(m));
  }

  /** The second half of `BuildCreates`, once the factory exists. */
  lemma BuildAfterFactory(m: Machine)
    requires Holds(m, 1, 0)
    ensures var r := ConnectToSignallingServer(InitializePeerConnections(CreateVideoTrackFromCameraAndShowIt(m)));
            Holds(r, 1, 1) && SinceReset(r.log) == SinceReset(m.log)
  {
    CameraPlain(m, 1, 0);
    var m2 := CreateVideoTrackFromCameraAndShowIt(m);
    CreateOne(m2, Peer);
    Plain(InitializePeerConnections(m2), ConnectSocket, 1, 1);
  }

  /** Creating an object of a kind none of which is alive leaves exactly one alive. */
  lemma CreateOne(m: Machine, res: Resource)
    requires LogOk(m.log) && Live(m.log, res) == 0 && 0 <= Live(m.log, Other(res)) <= 1
    ensures LogOk(Perform(m, Create(res)).log) && Live(Perform(m, Create(res)).log, res) == 1
    ensures Live(Perform(m, Create(res)).log, Other(res)) == Live(m.log, Other(res))
    ensures SinceReset(Perform(m, Create(res)).log) == SinceReset(m.log)
  {
    Extend(m.log, Create(res));
  }

  function Other(res: Resource): Resource {
    if res == Factory then Peer else Factory
  }

  /** `restart` rebuilds what it disposed, one object of each kind, and zeroes the counter. */
  lemma RestartKeeps(m: Machine)
    requires Holds(m, 1, 1) && Reportable(m.state)
    ensures Valid(Restart(m))
  {
    InitializeVariablesDisposes(m);
    BuildCreates(Clearview(InitializeVariables(m)));
  }

  lemma StartValid(devices: seq<Camera.Device>)
    ensures Valid(Start(devices))
  {
    var m0 := Machine(devices, false, false, false, SigState.Disconnected, false, 0, "", []);
    BuildCreates(m0);
  }

  /** Every event the activity can receive keeps the invariant. */
  lemma StepKeeps(m: Machine, e: Event)
    requires Valid(m) && Delivered(m, e)
    ensures Valid(Step(m, e))
  {
    if e.RelayConnect? || e.RelayCreated? || e.RelayFull? || e.RelayJoin? || e.RelayMessage? || e.RelayDisconnect? {
      RelayKeeps(m, e);
    } else {
      CallbackKeeps(m, e);
    }
  }

  /** The socket.io relay events. */
  lemma RelayKeeps(m: Machine, e: Event)
    requires Valid(m)
    requires e.RelayConnect? || e.RelayCreated? || e.RelayFull? || e.RelayJoin? || e.RelayMessage? || e.RelayDisconnect?
    ensures Valid(Step(m, e))
  {
    match e
    case RelayConnect =>
      PerformKeeps(m, Emit("create or join", RoomName(Room)));
      ChangeStateKeeps(Perform(m, Emit("create or join", RoomName(Room))).(needRetry := false), Connected);
    case RelayCreated => ChangeStateKeeps(m.(isInitiator := true), Created);
    case RelayFull => ChangeStateKeeps(m, Full);
    case RelayJoin => JoinKeeps(m);
    case RelayMessage(msg) => MessageKeeps(m, msg);
    case RelayDisconnect => DisconnectKeeps(m);
  }

  /** The retry timer, the SDP observer callbacks and the local candidates. */
  lemma CallbackKeeps(m: Machine, e: Event)
    requires Valid(m) && Delivered(m, e)
    requires e.RetryTimer? || e.OfferCreated? || e.RemoteOfferSet? || e.AnswerCreated? || e.AnswerLocalSet? || e.LocalCandidate?
    ensures Valid(Step(m, e))
  {
    match e
    case RetryTimer => PerformKeeps(m, ConnectSocket);
    case OfferCreated(sdp) => OfferCreatedKeeps(m, sdp);
    case RemoteOfferSet => PerformKeeps(m, CreateAnswer);
    case AnswerCreated(sdp) => PerformKeeps(m, SetLocal(sdp, SendAnswerOnSuccess));
    case AnswerLocalSet(sdp) => AnswerLocalSetKeeps(m, sdp);
    case LocalCandidate(mid, index, c) => CandidateSentKeeps(m, mid, index, c);
  }

  lemma CandidateSentKeeps(m: Machine, mid: string, index: int, c: string)
    requires Valid(m)
    ensures Valid(OnIceCandidate(m, mid, index, c))
  {
    var sent := Emit("message", Json(CandidateMessage(Room, mid, index, c)));
    CandidateMessageFields(Room, mid, index, c);
    assert SentSdp(sent, "offer").None? && SentSdp(sent, "answer").None?;
    PerformKeeps(m, sent);
  }

  lemma JoinKeeps(m: Machine)
    requires Valid(m)
    ensures Valid(OnJoin(m))
  {
    var m1 := ChangeState(m.(isChannelReady := true), Joining);
    if !m1.isStarted {
      PerformKeeps(m1, AddLocalTracks);
      MaybeStartKeeps(Perform(m1, AddLocalTracks));
    }
  }

  lemma DisconnectKeeps(m: Machine)
    requires Valid(m)
    ensures Valid(OnDisconnected(m))
  {
    if m.needRetry && m.retryCounter + 1 < MaxRetry {
      Extend(m.log, ScheduleReconnect(RetryWaitMs));
    } else {
      RestartKeeps(m);
    }
  }

  lemma OfferCreatedKeeps(m: Machine, sdp: string)
    requires Valid(m) && CreateOffer in m.log
    ensures Valid(OnOfferCreated(m, sdp))
  {
    PerformKeeps(m, SetLocal(sdp, NoOp));
    var m1 := Perform(m, SetLocal(sdp, NoOp));
    var sent := Emit("message", Json(OfferMessage(Room, sdp)));
    SdpMessageFields("offer", Room, sdp);
    assert SentSdp(sent, "offer") == Some(sdp);
    PerformKeeps(m1, sent);
  }

  lemma AnswerLocalSetKeeps(m: Machine, sdp: string)
    requires Valid(m) && SetLocal(sdp, SendAnswerOnSuccess) in m.log
    ensures Valid(OnAnswerLocalSet(m, sdp))
  {
    var sent := Emit("message", Json(AnswerMessage(Room, sdp)));
    SdpMessageFields("answer", Room, sdp);
    assert SentSdp(sent, "answer") == Some(sdp);
    PerformKeeps(m, sent);
  }

  /** A state change reports an assigned state and touches no other part of the invariant. */
  lemma ChangeStateKeeps(m: Machine, s: SigState)
    requires Valid(m) && Assigned(s)
    ensures Valid(ChangeState(m, s))
  {
  }

  lemma MessageKeeps(m: Machine, msg: JsonObject)
    requires Valid(m)
    ensures Valid(OnMessage(m, msg))
  {
    match GetString(msg, "type")
    case None =>
    case Some(t) =>
      if t == "offer" {
        OfferMessageKeeps(m, msg);
      } else if t == "answer" && m.isStarted {
        AnswerMessageKeeps(m, msg);
      } else if t == "candidate" && m.isStarted {
        CandidateMessageKeeps(m, msg);
      } else {
        assert OnMessage(m, msg) == m;
      }
  }

  lemma OfferMessageKeeps(m: Machine, msg: JsonObject)
    requires Valid(m) && GetString(msg, "type") == Some("offer")
    ensures Valid(OnMessage(m, msg))
  {
    var m1 := ChangeState(m, CreatingAnswer);
    ChangeStateKeeps(m, CreatingAnswer);
    var m2 := if !m1.isInitiator && !m1.isStarted then MaybeStart(m1) else m1;
    MaybeStartKeeps(m1);
    match GetString(msg, "sdp")
    case None =>
      assert OnMessage(m, msg) == m2;
    case Some(sdp) =>
      PerformKeeps(m2, SetRemote(OFFER, sdp, AnswerOnSuccess));
      assert OnMessage(m, msg) == Perform(m2, SetRemote(OFFER, sdp, AnswerOnSuccess));
  }

  lemma AnswerMessageKeeps(m: Machine, msg: JsonObject)
    requires Valid(m) && m.isStarted && GetString(msg, "type") == Some("answer")
    ensures Valid(OnMessage(m, msg))
  {
    var m1 := ChangeState(m, ReceivedAnswer);
    ChangeStateKeeps(m, ReceivedAnswer);
    match GetString(msg, "sdp")
    case None =>
      assert OnMessage(m, msg) == m1;
    case Some(sdp) =>
      PerformKeeps(m1, SetRemote(ANSWER, sdp, NoOp));
      assert OnMessage(m, msg) == Perform(m1, SetRemote(ANSWER, sdp, NoOp));
  }

  lemma CandidateMessageKeeps(m: Machine, msg: JsonObject)
    requires Valid(m) && m.isStarted && GetString(msg, "type") == Some("candidate")
    ensures Valid(OnMessage(m, msg))
  {
    var m1 := ChangeState(m, ReceivedCandidate);
    ChangeStateKeeps(m, ReceivedCandidate);
    match (GetString(msg, "id"), GetInt(msg, "label"), GetString(msg, "candidate"))
    case (Some(id), Some(index), Some(c)) =>
      PerformKeeps(m1, AddCandidate(id, index, c));
      assert OnMessage(m, msg) == Perform(m1, AddCandidate(id, index, c));
    case _ =>
      assert OnMessage(m, msg) == m1;
  }

  /** `Balanced` means what it says: no prefix of the log has two live objects of a kind. */
  lemma {:induction false} BalancedAt(log: seq<Effect>, res: Resource, k: nat)
    requires Balanced(log, res) && k <= |log|
    ensures 0 <= Live(log[..k], res) <= 1
    decreases |log|
  {
    if k == |log| {
      assert log[..k] == log;
    } else {
      var init := log[..|log| - 1];
      assert init[..k] == log[..k];
      BalancedAt(init, res, k);
    }
  }

  /** `Ordered` means what it says: each effect fits the part of the log before it. */
  lemma {:induction false} OrderedAt(log: seq<Effect>, i: nat)
    requires Ordered(log) && i < |log|
    ensures Fits(log[..i], log[i])
    decreases |log|
  {
    if i < |log| - 1 {
      var init := log[..|log| - 1];
      assert init[..i] == log[..i] && init[i] == log[i];
      OrderedAt(init, i);
    }
  }

  /** The state after a sequence of events. */
  function Run(m: Machine, events: seq<Event>): Machine
    decreases |events|
  {
    if events == [] then m else Run(Step(m, events[0]), events[1..])
  }

  /** Every callback of the sequence arrives for an observer handed out before it. */
  predicate Admissible(m: Machine, events: seq<Event>)
    decreases |events|
  {
    events == [] || (Delivered(m, events[0]) && Admissible(Step(m, events[0]), events[1..]))
  }

  lemma {:induction false} RunKeeps(m: Machine, events: seq<Event>)
    requires Valid(m) && Admissible(m, events)
    ensures Valid(Run(m, events))
    decreases |events|
  {
    if events != [] {
      StepKeeps(m, events[0]);
      RunKeeps(Step(m, events[0]), events[1..]);
    }
  }

  /** Every state reachable from `start()` satisfies the invariant. */
  lemma ReachableValid(devices: seq<Camera.Device>, events: seq<Event>)
    requires Admissible(Start(devices), events)
    ensures Valid(Run(Start(devices), events))
  {
    StartValid(devices);
    RunKeeps(Start(devices), events);
  }

  /** `onDestroy` leaves no peer connection and no factory alive, with the log still well formed. */
  lemma DestroyReleases(m: Machine)
    requires Valid(m)
    ensures LogOk(Destroy(m).log)
    ensures Live(Destroy(m).log, Peer) == 0 && Live(Destroy(m).log, Factory) == 0
  {
    var m1 := m.(needRetry := false, retryCounter := 0);
    Extend(m1.log, DisconnectSocket);
    var m2 := Perform(m1, DisconnectSocket);
    Extend(m2.log, Dispose(Peer));
    var m3 := Perform(m2, Dispose(Peer));
    Extend(m3.log, Dispose(Factory));
  }
}
