/**
 * `MainActivity` as a class: its signalling fields are fields here, each
 * handler and helper is a method that updates them as the activity does,
 * and each method is proved to perform the transition `Negotiation` gives
 * for it. Event handlers also keep `Invariants.Valid`.
 */
module Activity {
  import opened Wrappers
  import opened Status
  import opened Messages
  import Camera
  import N = Negotiation
  import Invariants

  class MainActivity {
    /** The camera enumerator: device names and whether each is front facing. */
    const devices: seq<Camera.Device>

    var isInitiator: bool
    var isChannelReady: bool
    var isStarted: bool
    var mState: SigState
    var mNeedRetry: bool
    var mRetryCounter: int
    /** The text of the status label. */
    var statusText: string
    /** What the activity has asked of the socket, the peer connection, the factory and the timer. */
    var effects: seq<N.Effect>

    function Snapshot(): N.Machine
      reads this
    {
      N.Machine(devices, isInitiator, isChannelReady, isStarted, mState,
                mNeedRetry, mRetryCounter, statusText, effects)
    }

    ghost predicate Valid()
      reads this
    {
      Invariants.Valid(Snapshot())
    }

    /** `onCreate` followed by `start()` with the permissions granted. */
    constructor (devices: seq<Camera.Device>)
      ensures Snapshot() == N.Start(devices)
      ensures Valid()
    {
      this.devices := devices;
      isInitiator, isChannelReady, isStarted := false, false, false;
      mState := SigState.Disconnected;
      mNeedRetry, mRetryCounter := false, 0;
      statusText := "";
      effects := [];
      new;
      InitializePeerConnectionFactory();
      CreateVideoTrackFromCameraAndShowIt();
      InitializePeerConnections();
      ConnectToSignallingServer();
      mNeedRetry := true;
      mRetryCounter := 0;
      Invariants.StartValid(devices);
    }

    method Perform(e: N.Effect)
      modifies this
      ensures Snapshot() == N.Perform(old(Snapshot()), e)
    {
      effects := effects + [e];
    }

    method SetStatusText(stateText: string)
      modifies this
      ensures Snapshot() == old(Snapshot()).(status := AppendLine(old(statusText), stateText))
    {
      statusText := AppendLine(statusText, stateText);
    }

    method ChangeState(state: SigState)
      modifies this
      ensures Snapshot() == old(Snapshot()).(state := state, status := AppendLine(old(statusText), Label(state)))
      ensures Snapshot() == N.ChangeState(old(Snapshot()), state)
    {
      mState := state;
      SetStatusText(Label(state));
    }

    method SendMessage(message: JsonObject)
      modifies this
      ensures Snapshot() == N.SendMessage(old(Snapshot()), message)
    {
      Perform(N.Emit("message", N.Json(message)));
    }

    method DoCall()
      modifies this
      ensures Snapshot() == N.DoCall(old(Snapshot()))
    {
      ChangeState(Offering);
      Perform(N.CreateOffer);
    }

    method MaybeStart()
      modifies this
      ensures Snapshot() == N.MaybeStart(old(Snapshot()))
    {
      if !isStarted && isChannelReady {
        isStarted := true;
        if isInitiator {
          DoCall();
        }
      }
    }

    method StartStreamingVideo()
      modifies this
      ensures Snapshot() == N.StartStreamingVideo(old(Snapshot()))
    {
      Perform(N.AddLocalTracks);
      MaybeStart();
    }

    method DoAnswer()
      modifies this
      ensures Snapshot() == N.DoAnswer(old(Snapshot()))
    {
      Perform(N.CreateAnswer);
    }

    method ConnectToSignallingServer()
      modifies this
      ensures Snapshot() == N.ConnectToSignallingServer(old(Snapshot()))
    {
      Perform(N.ConnectSocket);
    }

    method InitializePeerConnectionFactory()
      modifies this
      ensures Snapshot() == N.InitializePeerConnectionFactory(old(Snapshot()))
    {
      Perform(N.Create(N.Factory));
    }

    method CreateVideoTrackFromCameraAndShowIt()
      modifies this
      ensures Snapshot() == N.CreateVideoTrackFromCameraAndShowIt(old(Snapshot()))
    {
      var capturer := Camera.CreateCameraCapturer(devices);
      if capturer.Some? {
        Perform(N.StartCapture(capturer.value));
      }
    }

    method InitializePeerConnections()
      modifies this
      ensures Snapshot() == N.InitializePeerConnections(old(Snapshot()))
    {
      Perform(N.Create(N.Peer));
    }

    method InitializeVariables()
      modifies this
      ensures Snapshot() == N.InitializeVariables(old(Snapshot()))
    {
      mNeedRetry := false;
      mRetryCounter := 0;
      isInitiator := false;
      isChannelReady := false;
      isStarted := false;
      Perform(N.DisconnectSocket);
      Perform(N.Dispose(N.Peer));
      Perform(N.Dispose(N.Factory));
    }

    method Clearview()
      modifies this
      ensures Snapshot() == old(Snapshot()).(status := "")
    {
      statusText := "";
    }

    method Restart()
      modifies this
      ensures Snapshot() == N.Restart(old(Snapshot()))
    {
      InitializeVariables();
      Clearview();
      InitializePeerConnectionFactory();
      CreateVideoTrackFromCameraAndShowIt();
      InitializePeerConnections();
      ConnectToSignallingServer();
    }

    /** The retry policy run by the `disconnect` handler. */
    method Disconnected()
      modifies this
      ensures Snapshot() == N.OnDisconnected(old(Snapshot()))
    {
      if mNeedRetry {
        mRetryCounter := mRetryCounter + 1;
        if mRetryCounter < N.MaxRetry {
          Perform(N.ScheduleReconnect(N.RetryWaitMs));
        } else {
          Restart();
        }
      } else {
        Restart();
      }
    }

    method OnDestroy()
      modifies this
      ensures Snapshot() == N.Destroy(old(Snapshot()))
    {
      mNeedRetry := false;
      mRetryCounter := 0;
      Perform(N.DisconnectSocket);
      Perform(N.Dispose(N.Peer));
      Perform(N.Dispose(N.Factory));
    }

    // The handlers registered in `connectToSignallingServer`.

    method OnConnect()
      requires Valid()
      modifies this
      ensures Snapshot() == N.OnConnect(old(Snapshot())) && Valid()
    {
      ghost var before := Snapshot();
      Perform(N.Emit("create or join", N.RoomName(N.Room)));
      mNeedRetry := false;
      assert Snapshot() == N.Perform(before, N.Emit("create or join", N.RoomName(N.Room))).(needRetry := false);
      ChangeState(Connected);
      assert Snapshot() == N.OnConnect(before);
      Invariants.StepKeeps(before, N.RelayConnect);
    }

    method OnCreated()
      requires Valid()
      modifies this
      ensures Snapshot() == N.OnCreated(old(Snapshot())) && Valid()
    {
      ghost var before := Snapshot();
      isInitiator := true;
      assert Snapshot() == before.(isInitiator := true);
      ChangeState(Created);
      assert Snapshot() == N.OnCreated(before);
      Invariants.StepKeeps(before, N.RelayCreated);
    }

    method OnFull()
      requires Valid()
      modifies this
      ensures Snapshot() == N.OnFull(old(Snapshot())) && Valid()
    {
      ghost var before := Snapshot();
      ChangeState(Full);
      Invariants.StepKeeps(before, N.RelayFull);
    }

    method OnJoin()
      requires Valid()
      modifies this
      ensures Snapshot() == N.OnJoin(old(Snapshot())) && Valid()
    {
      ghost var before := Snapshot();
      isChannelReady := true;
      assert Snapshot() == before.(isChannelReady := true);
      ChangeState(Joining);
      if !isStarted {
        StartStreamingVideo();
      }
      assert Snapshot() == N.OnJoin(before);
      Invariants.StepKeeps(before, N.RelayJoin);
    }

    /** A field that cannot be read returns early, as the caught `JSONException` does. */
    method OnMessage(message: JsonObject)
      requires Valid()
      modifies this
      ensures Snapshot() == N.OnMessage(old(Snapshot()), message) && Valid()
    {
      ghost var before := Snapshot();
      Invariants.StepKeeps(before, N.RelayMessage(message));
      var kind := GetString(message, "type");
      if kind.None? {
        return;
      }
      if kind.value == "offer" {
        ChangeState(CreatingAnswer);
        if !isInitiator && !isStarted {
          MaybeStart();
        }
        var sdp := GetString(message, "sdp");
        if sdp.None? {
          return;
        }
        Perform(N.SetRemote(N.OFFER, sdp.value, N.AnswerOnSuccess));
      } else if kind.value == "answer" && isStarted {
        ChangeState(ReceivedAnswer);
        var sdp := GetString(message, "sdp");
        if sdp.None? {
          return;
        }
        Perform(N.SetRemote(N.ANSWER, sdp.value, N.NoOp));
      } else if kind.value == "candidate" && isStarted {
        ChangeState(ReceivedCandidate);
        var id := GetString(message, "id");
        if id.None? {
          return;
        }
        var index := GetInt(message, "label");
        if index.None? {
          return;
        }
        var candidate := GetString(message, "candidate");
        if candidate.None? {
          return;
        }
        Perform(N.AddCandidate(id.value, index.value, candidate.value));
      }
    }

    method OnDisconnect()
      requires Valid()
      modifies this
      ensures Snapshot() == N.OnDisconnected(old(Snapshot())) && Valid()
    {
      ghost var before := Snapshot();
      Disconnected();
      Invariants.StepKeeps(before, N.RelayDisconnect);
    }

    /** The runnable posted by `disconnected` fires. */
    method OnRetryTimer()
      requires Valid()
      modifies this
      ensures Snapshot() == N.ConnectToSignallingServer(old(Snapshot())) && Valid()
    {
      ghost var before := Snapshot();
      ConnectToSignallingServer();
      Invariants.StepKeeps(before, N.RetryTimer);
    }

    // The observers handed to the peer connection.

    /** `onCreateSuccess` of the offer observer in `doCall`. */
    method OnOfferCreated(sdp: string)
      requires Valid() && N.Delivered(Snapshot(), N.OfferCreated(sdp))
      modifies this
      ensures Snapshot() == N.OnOfferCreated(old(Snapshot()), sdp) && Valid()
    {
      ghost var before := Snapshot();
      Perform(N.SetLocal(sdp, N.NoOp));
      SendMessage(OfferMessage(N.Room, sdp));
      Invariants.StepKeeps(before, N.OfferCreated(sdp));
    }

    /** `onSetSuccess` of the remote-offer observer. */
    method OnRemoteOfferSet()
      requires Valid() && N.Delivered(Snapshot(), N.RemoteOfferSet)
      modifies this
      ensures Snapshot() == N.DoAnswer(old(Snapshot())) && Valid()
    {
      ghost var before := Snapshot();
      DoAnswer();
      Invariants.StepKeeps(before, N.RemoteOfferSet);
    }

    /** `onCreateSuccess` of the answer observer in `doAnswer`. */
    method OnAnswerCreated(sdp: string)
      requires Valid() && N.Delivered(Snapshot(), N.AnswerCreated(sdp))
      modifies this
      ensures Snapshot() == N.OnAnswerCreated(old(Snapshot()), sdp) && Valid()
    {
      ghost var before := Snapshot();
      Perform(N.SetLocal(sdp, N.SendAnswerOnSuccess));
      Invariants.StepKeeps(before, N.AnswerCreated(sdp));
    }

    /** `onSetSuccess` of the local-answer observer. */
    method OnAnswerLocalSet(sdp: string)
      requires Valid() && N.Delivered(Snapshot(), N.AnswerLocalSet(sdp))
      modifies this
      ensures Snapshot() == N.OnAnswerLocalSet(old(Snapshot()), sdp) && Valid()
    {
      ghost var before := Snapshot();
      SendMessage(AnswerMessage(N.Room, sdp));
      Invariants.StepKeeps(before, N.AnswerLocalSet(sdp));
    }

    /** `onIceCandidate` of the peer-connection observer. */
    method OnIceCandidate(mid: string, index: int, candidate: string)
      requires Valid()
      modifies this
      ensures Snapshot() == N.OnIceCandidate(old(Snapshot()), mid, index, candidate) && Valid()
    {
      ghost var before := Snapshot();
      Perform(N.Emit("message", N.Json(CandidateMessage(N.Room, mid, index, candidate))));
      Invariants.StepKeeps(before, N.LocalCandidate(mid, index, candidate));
    }
  }
}
