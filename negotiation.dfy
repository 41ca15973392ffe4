/**
 * The signalling and negotiation state of `MainActivity` as a value, and
 * one transition function per handler and helper of the activity. The
 * socket.io transport, the peer connection, its factory, the camera and
 * the retry timer are reduced to an append-only log of effects.
 */
module Negotiation {
  import opened Wrappers
  import opened Status
  import opened Messages
  import Camera

  /** The configured room; every outbound message names it. */
  const Room: string := "STANZA"
  /** `MAX_WS_CONNECT_RETRY_CNT` */
  const MaxRetry: int := 3
  /** `WS_CONNECT_RETRY_WAITTIME`, in milliseconds */
  const RetryWaitMs: int := 5000

  /** The two disposable WebRTC objects the activity owns. */
  datatype Resource = Factory | Peer

  /** `SessionDescription.Type` */
  datatype SdpType = OFFER | ANSWER

  /** What the observer handed to a set-description call does on success. */
  datatype Observer =
    | NoOp               // `SimpleSdpObserver()`
    | AnswerOnSuccess    // the remote-offer observer: `doAnswer()`
    | SendAnswerOnSuccess  // the local-answer observer: send the answer message

  datatype Payload = RoomName(name: string) | Json(obj: JsonObject)

  datatype Effect =
    | Emit(event: string, payload: Payload)            // `socket.emit`
    | ConnectSocket                                    // a new socket, handlers, `socket.connect()`
    | DisconnectSocket                                 // `socket.disconnect()`
    | Create(res: Resource)                            // factory / peer connection built
    | Dispose(res: Resource)                           // `dispose()`
    | StartCapture(device: string)                     // capturer opened on a device
    | AddLocalTracks                                   // tracks and transceivers of `startStreamingVideo`
    | CreateOffer                                      // `peerConnection.createOffer`
    | CreateAnswer                                     // `peerConnection.createAnswer`
    | SetLocal(sdp: string, observer: Observer)        // `setLocalDescription`
    | SetRemote(kind: SdpType, sdp: string, observer: Observer)  // `setRemoteDescription`
    | AddCandidate(id: string, index: int, candidate: string)    // `addIceCandidate`
    | ScheduleReconnect(delayMs: int)                  // `mHandler.postDelayed`

  /** The fields of the activity that the signalling core reads and writes. */
  datatype Machine = Machine(
    devices: seq<Camera.Device>,
    isInitiator: bool,
    isChannelReady: bool,
    isStarted: bool,
    state: SigState,
    needRetry: bool,
    retryCounter: int,
    status: string,
    log: seq<Effect>)

  function Perform(m: Machine, e: Effect): (r: Machine)
    ensures r.log == m.log + [e]
  {
    m.(log := m.log + [e])
  }

  /** `changeState` with the `setStatusText` it posts. */
  function ChangeState(m: Machine, s: SigState): (r: Machine)
    ensures r.state == s && ShowsState(r.status, s)
    ensures |r.status| == |m.status| + 3 + |Label(s)| && EndsWith(r.status, " \n " + Label(s))
    ensures r.status[..|m.status|] == m.status
    ensures r.(state := m.state, status := m.status) == m
  {
    var r := m.(state := s, status := AppendLine(m.status, Label(s)));
    assert r.status[|r.status| - |" \n " + Label(s)|..] == " \n " + Label(s);
    r
  }

  /** `sendMessage`: one `message` event on the socket, nothing else. */
  function SendMessage(m: Machine, message: JsonObject): (r: Machine)
    ensures r.log == m.log + [Emit("message", Json(message))]
    ensures r.(log := m.log) == m
  {
    Perform(m, Emit("message", Json(message)))
  }

  /** `doCall`: report Offering, then ask the peer connection for an offer. */
  function DoCall(m: Machine): (r: Machine)
    ensures r.state == Offering && r.status == AppendLine(m.status, Label(Offering))
    ensures r.log == m.log + [CreateOffer]
    ensures r.(state := m.state, status := m.status, log := m.log) == m
  {
    Perform(ChangeState(m, Offering), CreateOffer)
  }

  /** Starts the negotiation once; only the initiator asks for an offer. */
  function MaybeStart(m: Machine): (r: Machine)
    ensures r.isStarted == (m.isStarted || m.isChannelReady)
    ensures r.log == m.log + (if !m.isStarted && m.isChannelReady && m.isInitiator then [CreateOffer] else [])
    ensures r.state == (if !m.isStarted && m.isChannelReady && m.isInitiator then Offering else m.state)
    ensures r.status == (if !m.isStarted && m.isChannelReady && m.isInitiator
                         then AppendLine(m.status, Label(Offering)) else m.status)
    ensures r.(isStarted := m.isStarted, state := m.state, status := m.status, log := m.log) == m
  {
    if !m.isStarted && m.isChannelReady then
      var m1 := m.(isStarted := true);
      if m1.isInitiator then DoCall(m1) else m1
    else m
  }

  /** `startStreamingVideo`: the local tracks are added, then `maybeStart`. */
  function StartStreamingVideo(m: Machine): (r: Machine)
    ensures r.log == m.log + [AddLocalTracks]
                    + (if !m.isStarted && m.isChannelReady && m.isInitiator then [CreateOffer] else [])
    ensures r.isStarted == (m.isStarted || m.isChannelReady)
    ensures r.state == (if !m.isStarted && m.isChannelReady && m.isInitiator then Offering else m.state)
    ensures r.status == (if !m.isStarted && m.isChannelReady && m.isInitiator
                         then AppendLine(m.status, Label(Offering)) else m.status)
    ensures r.(isStarted := m.isStarted, state := m.state, status := m.status, log := m.log) == m
  {
    MaybeStart(Perform(m, AddLocalTracks))
  }

  function ConnectToSignallingServer(m: Machine): Machine {
    Perform(m, ConnectSocket)
  }

  function InitializePeerConnectionFactory(m: Machine): Machine {
    Perform(m, Create(Factory))
  }

  function CameraEffects(devices: seq<Camera.Device>): seq<Effect> {
    match Camera.SelectCamera(devices)
    case Some(d) => [StartCapture(d)]
    case None => []
  }

  function CreateVideoTrackFromCameraAndShowIt(m: Machine): Machine {
    m.(log := m.log + CameraEffects(m.devices))
  }

  function InitializePeerConnections(m: Machine): Machine {
    Perform(m, Create(Peer))
  }

  /** `initializeVariables`: flags and retry fields cleared, the old objects released. */
  function InitializeVariables(m: Machine): (r: Machine)
    ensures !r.isInitiator && !r.isChannelReady && !r.isStarted
    ensures !r.needRetry && r.retryCounter == 0
    ensures r.log == m.log + [DisconnectSocket, Dispose(Peer), Dispose(Factory)]
    ensures r.state == m.state && r.status == m.status && r.devices == m.devices
  {
    var m1 := m.(needRetry := false, retryCounter := 0,
                 isInitiator := false, isChannelReady := false, isStarted := false);
    Perform(Perform(Perform(m1, DisconnectSocket), Dispose(Peer)), Dispose(Factory))
  }

  /** `clearview`: only the status label changes, to empty. */
  function Clearview(m: Machine): (r: Machine)
    ensures r.status == "" && r.(status := m.status) == m
  {
    m.(status := "")
  }

  /** The effects `restart` appends: the old socket, peer connection and factory go first. */
  function RestartEffects(devices: seq<Camera.Device>): seq<Effect> {
    [DisconnectSocket, Dispose(Peer), Dispose(Factory), Create(Factory)]
    + CameraEffects(devices) + [Create(Peer), ConnectSocket]
  }

  /** `restart`: all flags and retry fields reset, status emptied, everything rebuilt. */
  function Restart(m: Machine): (r: Machine)
    ensures !r.isInitiator && !r.isChannelReady && !r.isStarted
    ensures !r.needRetry && r.retryCounter == 0 && r.status == ""
    ensures r.state == m.state && r.devices == m.devices
    ensures r.log == m.log + RestartEffects(m.devices)
  {
    ConnectToSignallingServer(InitializePeerConnections(CreateVideoTrackFromCameraAndShowIt(
      InitializePeerConnectionFactory(Clearview(InitializeVariables(m))))))
  }

  /** `start()` once the permissions are granted; `devices` is the camera enumerator. */
  function Start(devices: seq<Camera.Device>): (r: Machine)
    ensures !r.isInitiator && !r.isChannelReady && !r.isStarted
    ensures r.needRetry && r.retryCounter == 0 && r.status == "" && r.state == SigState.Disconnected
    ensures r.log == [Create(Factory)] + CameraEffects(devices) + [Create(Peer), ConnectSocket]
    ensures r.devices == devices
  {
    var m0 := Machine(devices, false, false, false, SigState.Disconnected, false, 0, "", []);
    var m1 := ConnectToSignallingServer(InitializePeerConnections(
      CreateVideoTrackFromCameraAndShowIt(InitializePeerConnectionFactory(m0))));
    m1.(needRetry := true, retryCounter := 0)
  }

  /** The `connect` handler. */
  function OnConnect(m: Machine): (r: Machine)
    ensures r.log == m.log + [Emit("create or join", RoomName(Room))]
    ensures !r.needRetry && r.state == Connected
    ensures r.status == AppendLine(m.status, Label(Connected))
    ensures r.(needRetry := m.needRetry, state := m.state, status := m.status, log := m.log) == m
  {
    ChangeState(Perform(m, Emit("create or join", RoomName(Room))).(needRetry := false), Connected)
  }

  /** The `created` handler: this peer is the initiator. */
  function OnCreated(m: Machine): (r: Machine)
    ensures r.isInitiator && r.state == Created && r.log == m.log
    ensures r.status == AppendLine(m.status, Label(Created))
    ensures r.(isInitiator := m.isInitiator, state := m.state, status := m.status) == m
  {
    ChangeState(m.(isInitiator := true), Created)
  }

  /** The `full` handler: only reported. */
  function OnFull(m: Machine): (r: Machine)
    ensures r.state == Full && r.status == AppendLine(m.status, Label(Full))
    ensures r.(state := m.state, status := m.status) == m
  {
    ChangeState(m, Full)
  }

  /** The `join` handler: the channel is ready; streaming and `maybeStart` only when not started. */
  function OnJoin(m: Machine): (r: Machine)
    ensures r.isChannelReady && r.isStarted
    ensures m.isStarted ==> r.log == m.log && r.state == Joining
    ensures !m.isStarted ==>
      r.log == m.log + [AddLocalTracks] + (if m.isInitiator then [CreateOffer] else [])
      && r.state == (if m.isInitiator then Offering else Joining)
    ensures r.status == if !m.isStarted && m.isInitiator
                        then AppendLine(AppendLine(m.status, Label(Joining)), Label(Offering))
                        else AppendLine(m.status, Label(Joining))
    ensures r.(isChannelReady := m.isChannelReady, isStarted := m.isStarted, state := m.state,
               status := m.status, log := m.log) == m
  {
    var m1 := ChangeState(m.(isChannelReady := true), Joining);
    if !m1.isStarted then StartStreamingVideo(m1) else m1
  }

  /** The effect applied for an inbound message once its remaining fields have been read. */
  function OfferEffects(msg: JsonObject): seq<Effect> {
    match GetString(msg, "sdp")
    case Some(sdp) => [SetRemote(OFFER, sdp, AnswerOnSuccess)]
    case None => []
  }

  function AnswerEffects(msg: JsonObject): seq<Effect> {
    match GetString(msg, "sdp")
    case Some(sdp) => [SetRemote(ANSWER, sdp, NoOp)]
    case None => []
  }

  function CandidateEffects(msg: JsonObject): seq<Effect> {
    match (GetString(msg, "id"), GetInt(msg, "label"), GetString(msg, "candidate"))
    case (Some(id), Some(index), Some(c)) => [AddCandidate(id, index, c)]
    case _ => []
  }

  /**
   * The `message` handler. A field that cannot be read ends the handler
   * (the caught `JSONException`); what it did before stays done.
   */
  function OnMessage(m: Machine, msg: JsonObject): (r: Machine)
    ensures GetString(msg, "type").None? ==> r == m
    ensures GetString(msg, "type") == Some("offer") ==>
      r.state == CreatingAnswer && r.status == AppendLine(m.status, Label(CreatingAnswer))
      && r.isStarted == (m.isStarted || (!m.isInitiator && m.isChannelReady))
      && r.log == m.log + OfferEffects(msg)
    ensures GetString(msg, "type") == Some("answer") ==>
      if m.isStarted then
        r.isStarted && r.state == ReceivedAnswer && r.status == AppendLine(m.status, Label(ReceivedAnswer))
        && r.log == m.log + AnswerEffects(msg)
      else r == m
    ensures GetString(msg, "type") == Some("candidate") ==>
      if m.isStarted then
        r.isStarted && r.state == ReceivedCandidate && r.status == AppendLine(m.status, Label(ReceivedCandidate))
        && r.log == m.log + CandidateEffects(msg)
      else r == m
    ensures GetString(msg, "type").Some? && GetString(msg, "type").value !in {"offer", "answer", "candidate"}
      ==> r == m
    ensures r.(isStarted := m.isStarted, state := m.state, status := m.status, log := m.log) == m
  {
    match GetString(msg, "type")
    case None => m
    case Some(t) =>
      if t == "offer" then
        var m1 := ChangeState(m, CreatingAnswer);
        var m2 := if !m1.isInitiator && !m1.isStarted then MaybeStart(m1) else m1;
        match GetString(msg, "sdp")
        case None => m2
        case Some(sdp) => Perform(m2, SetRemote(OFFER, sdp, AnswerOnSuccess))
      else if t == "answer" && m.isStarted then
        var m1 := ChangeState(m, ReceivedAnswer);
        match GetString(msg, "sdp")
        case None => m1
        case Some(sdp) => Perform(m1, SetRemote(ANSWER, sdp, NoOp))
      else if t == "candidate" && m.isStarted then
        var m1 := ChangeState(m, ReceivedCandidate);
        match (GetString(msg, "id"), GetInt(msg, "label"), GetString(msg, "candidate"))
        case (Some(id), Some(index), Some(c)) => Perform(m1, AddCandidate(id, index, c))
        case _ => m1
      else m
  }

  /** `disconnected`: the retry policy. */
  function OnDisconnected(m: Machine): (r: Machine)
    ensures m.needRetry && m.retryCounter + 1 < MaxRetry ==>
      r == m.(retryCounter := m.retryCounter + 1, log := m.log + [ScheduleReconnect(RetryWaitMs)])
    ensures !(m.needRetry && m.retryCounter + 1 < MaxRetry) ==> r == Restart(m)
  {
    if m.needRetry then
      var m1 := m.(retryCounter := m.retryCounter + 1);
      if m1.retryCounter < MaxRetry then Perform(m1, ScheduleReconnect(RetryWaitMs))
      else Restart(m1)
    else Restart(m)
  }

  /** The offer observer of `doCall`: set it locally and send it without waiting. */
  function OnOfferCreated(m: Machine, sdp: string): (r: Machine)
    ensures r.log == m.log + [SetLocal(sdp, NoOp), Emit("message", Json(OfferMessage(Room, sdp)))]
    ensures r.(log := m.log) == m
  {
    SendMessage(Perform(m, SetLocal(sdp, NoOp)), OfferMessage(Room, sdp))
  }

  /** `doAnswer`, run by the remote-offer observer once the offer is set. */
  function DoAnswer(m: Machine): (r: Machine)
    ensures r.log == m.log + [CreateAnswer] && r.(log := m.log) == m
  {
    Perform(m, CreateAnswer)
  }

  /** The answer observer of `doAnswer`: set the answer locally. */
  function OnAnswerCreated(m: Machine, sdp: string): (r: Machine)
    ensures r.log == m.log + [SetLocal(sdp, SendAnswerOnSuccess)] && r.(log := m.log) == m
  {
    Perform(m, SetLocal(sdp, SendAnswerOnSuccess))
  }

  /** The local-answer observer: only now is the answer sent. */
  function OnAnswerLocalSet(m: Machine, sdp: string): (r: Machine)
    ensures r.log == m.log + [Emit("message", Json(AnswerMessage(Room, sdp)))]
    ensures r.(log := m.log) == m
  {
    SendMessage(m, AnswerMessage(Room, sdp))
  }

  /** `onIceCandidate`: every local candidate is sent at once. */
  function OnIceCandidate(m: Machine, mid: string, index: int, candidate: string): (r: Machine)
    ensures r.log == m.log + [Emit("message", Json(CandidateMessage(Room, mid, index, candidate)))]
    ensures r.(log := m.log) == m
  {
    Perform(m, Emit("message", Json(CandidateMessage(Room, mid, index, candidate))))
  }

  /** `onDestroy`: the retry fields reset, socket, peer connection and factory released. */
  function Destroy(m: Machine): (r: Machine)
    ensures !r.needRetry && r.retryCounter == 0
    ensures r.log == m.log + [DisconnectSocket, Dispose(Peer), Dispose(Factory)]
    ensures r.(needRetry := m.needRetry, retryCounter := m.retryCounter, log := m.log) == m
  {
    Perform(Perform(Perform(m.(needRetry := false, retryCounter := 0), DisconnectSocket), Dispose(Peer)), Dispose(Factory))
  }

  /** What reaches the activity: relay events, SDP observer callbacks and the retry timer. */
  datatype Event =
    | RelayConnect
    | RelayCreated
    | RelayFull
    | RelayJoin
    | RelayMessage(obj: JsonObject)
    | RelayDisconnect
    | RetryTimer
    | OfferCreated(sdp: string)
    | RemoteOfferSet
    | AnswerCreated(sdp: string)
    | AnswerLocalSet(sdp: string)
    | LocalCandidate(mid: string, index: int, candidate: string)

  /** The dispatch from an event to its handler. */
  function Step(m: Machine, e: Event): Machine {
    match e
    case RelayConnect => OnConnect(m)
    case RelayCreated => OnCreated(m)
    case RelayFull => OnFull(m)
    case RelayJoin => OnJoin(m)
    case RelayMessage(obj) => OnMessage(m, obj)
    case RelayDisconnect => OnDisconnected(m)
    case RetryTimer => ConnectToSignallingServer(m)
    case OfferCreated(sdp) => OnOfferCreated(m, sdp)
    case RemoteOfferSet => DoAnswer(m)
    case AnswerCreated(sdp) => OnAnswerCreated(m, sdp)
    case AnswerLocalSet(sdp) => OnAnswerLocalSet(m, sdp)
    case LocalCandidate(mid, index, c) => OnIceCandidate(m, mid, index, c)
  }

  /** Whichever handler an event reaches, the camera list stays and the effect log only grows at its end. */
  lemma StepAppends(m: Machine, e: Event)
    ensures Step(m, e).devices == m.devices
    ensures |m.log| <= |Step(m, e).log| && Step(m, e).log[..|m.log|] == m.log
  {
    match e
    case RelayMessage(msg) => MessageAppends(m, msg);
    case RelayJoin =>
      Grows(m.log, if m.isStarted then [] else [AddLocalTracks] + (if m.isInitiator then [CreateOffer] else []));
    case RelayDisconnect =>
      Grows(m.log, if m.needRetry && m.retryCounter + 1 < MaxRetry then [ScheduleReconnect(RetryWaitMs)]
                   else RestartEffects(m.devices));
    case _ => OneEffectAppends(m, e);
  }

  lemma Grows(log: seq<Effect>, tail: seq<Effect>)
    ensures |log| <= |log + tail| && (log + tail)[..|log|] == log
  {
  }

  /** The events whose handler appends at most one effect, or two for a created offer. */
  lemma OneEffectAppends(m: Machine, e: Event)
    requires !e.RelayMessage? && !e.RelayJoin? && !e.RelayDisconnect?
    ensures Step(m, e).devices == m.devices
    ensures |m.log| <= |Step(m, e).log| && Step(m, e).log[..|m.log|] == m.log
  {
    match e
    case RelayConnect => Grows(m.log, [Emit("create or join", RoomName(Room))]);
    case RelayCreated => Grows(m.log, []);
    case RelayFull => Grows(m.log, []);
    case RetryTimer => Grows(m.log, [ConnectSocket]);
    case RemoteOfferSet => Grows(m.log, [CreateAnswer]);
    case AnswerCreated(sdp) => Grows(m.log, [SetLocal(sdp, SendAnswerOnSuccess)]);
    case OfferCreated(sdp) => Grows(m.log, [SetLocal(sdp, NoOp), Emit("message", Json(OfferMessage(Room, sdp)))]);
    case AnswerLocalSet(sdp) => Grows(m.log, [Emit("message", Json(AnswerMessage(Room, sdp)))]);
    case LocalCandidate(mid, index, c) => Grows(m.log, [Emit("message", Json(CandidateMessage(Room, mid, index, c)))]);
  }

  lemma MessageAppends(m: Machine, msg: JsonObject)
    ensures |m.log| <= |OnMessage(m, msg).log| && OnMessage(m, msg).log[..|m.log|] == m.log
    ensures OnMessage(m, msg).devices == m.devices
  {
    var r := OnMessage(m, msg);
    var t := GetString(msg, "type");
    var tail :=
      if t == Some("offer") then OfferEffects(msg)
      else if t == Some("answer") && m.isStarted then AnswerEffects(msg)
      else if t == Some("candidate") && m.isStarted then CandidateEffects(msg)
      else [];
    assert r.log == m.log + tail;
    assert r.log[..|m.log|] == m.log;
  }

  /** Some remote offer was handed to the peer connection with the observer that answers. */
  predicate OfferApplied(log: seq<Effect>) {
    exists i :: 0 <= i < |log| && log[i].SetRemote? && log[i].kind == OFFER && log[i].observer == AnswerOnSuccess
  }

  /** A callback only arrives for an observer that was handed to the peer connection. */
  predicate Delivered(m: Machine, e: Event) {
    match e
    case OfferCreated(_) => CreateOffer in m.log
    case RemoteOfferSet => OfferApplied(m.log)
    case AnswerCreated(_) => CreateAnswer in m.log
    case AnswerLocalSet(sdp) => SetLocal(sdp, SendAnswerOnSuccess) in m.log
    case _ => true
  }
}
