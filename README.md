# Signalling core of the WebRTC transmitter client

A Dafny model of the signalling and negotiation state machine of the Android
client `MainActivity`: the socket.io relay events (`connect`, `created`,
`full`, `join`, `message`, `disconnect`), the asynchronous SDP observer
callbacks of the peer connection, the start guard `maybeStart`, the offer and
answer paths `doCall` / `doAnswer`, the bounded reconnect policy
`disconnected`, the full reset `restart` / `initializeVariables` /
`clearview`, the status label (`changeState` / `setStatusText`), the
outbound ICE candidate message and the camera choice `createCameraCapturer`.

The socket, the peer connection, its factory, the camera capturer and the
retry timer are not modelled as objects: every call the activity makes on them
is appended to an effect log (`Emit(event, payload)`, `CreateOffer`,
`SetLocal`, `SetRemote(kind, sdp, observer)`, `AddCandidate`,
`ScheduleReconnect(5000)`, `Dispose(res)`, ...). The set-description
effects `SetLocal` and `SetRemote` record which observer they were given;
`CreateOffer` and `CreateAnswer` record none, since each call site has a
single observer. A callback (`OfferCreated`, `RemoteOfferSet`, `AnswerCreated`,
`AnswerLocalSet`) is an input event that can only arrive once its request is
in the log (`Negotiation.Delivered`).

Files:

- `wrappers.dfy`: `Option`.
- `status.dfy` (module `Status`): `SigState`, the label of each state, the status text.
- `messages.dfy` (module `Messages`): JSON objects as ordered key/value lists,
  `getString` / `getInt`, and the offer, answer and candidate messages.
- `camera.dfy` (module `Camera`): the device choice, as a function and as the two-loop method.
- `negotiation.dfy` (module `Negotiation`): the state as a value `Machine` and
  one transition function per handler and helper; `Step` dispatches an event.
- `invariants.dfy` (module `Invariants`): the invariant `Valid` and the proof that
  `start()` establishes it and every delivered event keeps it.
- `properties.dfy` (module `Properties`): multi-step properties.
- `activity.dfy` (module `Activity`): class `MainActivity` with the same fields;
  each method updates them as the Kotlin code does and is proved to perform the
  transition of `Negotiation`.

What the code does, and the model with it:

- Inbound candidates and answers are dropped when `isStarted` is false; nothing is buffered.
- SDP creation and set failures are only logged.
- `restart` does not reset `mState`; the status text, however, is emptied.
- `mNeedRetry` is set only by `start()`. Both a successful `connect` and
  `restart` clear it, so reconnect attempts happen only before the first
  successful connect of the first session; any later disconnect restarts at once.
- A responder that never receives `join` never sets `isStarted` (its
  `maybeStart` needs `isChannelReady`), so it answers the offer but drops
  every candidate it receives.
- `Joined`, `Connecting`, `ReceivedOffer` and `Done` are never assigned.

## Model

| member | source | states |
|---|---|---|
| Status.Label | app/src/main/java/com/example/webrtcclient/MainActivity.kt:613-627 | the label is empty exactly for `Disconnected`, the state the `when` leaves to its `else` branch |
| Status.LabelRoundTrip | app/src/main/java/com/example/webrtcclient/MainActivity.kt:613-627 | the label of every state reads back as that state, so the labels of distinct states differ (`Disconnected`, the `else` branch, gives the empty text) |
| Status.AppendLine | app/src/main/java/com/example/webrtcclient/MainActivity.kt:637-640 | the new status text is the old text, unchanged, then the separator " \n " (space, newline, space), then the line |
| Messages.Lookup | app/src/main/java/com/example/webrtcclient/MainActivity.kt:266-270 | a key is found exactly when the object has a binding for it, and the value found is bound to it |
| Messages.LookupLastWins | app/src/main/java/com/example/webrtcclient/MainActivity.kt:266-270 | the value found is the one of the last binding of the key, so a later `put` replaces an earlier value |
| Messages.GetString | app/src/main/java/com/example/webrtcclient/MainActivity.kt:228-270 | a string is read exactly when `Lookup` finds the key bound to text, and it is that text; a missing key or a number reads nothing |
| Messages.GetInt | app/src/main/java/com/example/webrtcclient/MainActivity.kt:268 | a number is read exactly when `Lookup` finds the key bound to a number, and it is that number; a missing key or text reads nothing |
| Messages.SdpMessageFields | app/src/main/java/com/example/webrtcclient/MainActivity.kt:348-352 | the offer (and, built the same way at lines 313-317, the answer) has exactly the keys type, room, sdp in that order, and reading them back gives the given type, room and sdp |
| Messages.CandidateMessageFields | app/src/main/java/com/example/webrtcclient/MainActivity.kt:465-471 | the candidate message has exactly the keys type, room, id, label, candidate; reading them back gives type "candidate", the room, the mid, the label as a number and the candidate, and it has no sdp |
| Camera.FirstFacing | app/src/main/java/com/example/webrtcclient/MainActivity.kt:533-542 | the index found is the first device of the wanted facing; none is found only if no device has it |
| Camera.SelectCamera | app/src/main/java/com/example/webrtcclient/MainActivity.kt:531-544 | a device is chosen exactly when the list is not empty |
| Camera.FrontFacingFirst | app/src/main/java/com/example/webrtcclient/MainActivity.kt:533-537 | the first front-facing device is chosen whenever one exists |
| Camera.NoFrontFacing | app/src/main/java/com/example/webrtcclient/MainActivity.kt:538-542 | with no front-facing device the first device of the list is chosen |
| Camera.CreateCameraCapturer | app/src/main/java/com/example/webrtcclient/MainActivity.kt:531-544 | the two loops with early return choose the device `SelectCamera` chooses; a name of the list, present iff the list is non-empty |
| Negotiation.ChangeState | app/src/main/java/com/example/webrtcclient/MainActivity.kt:609-632 | the state becomes the new one; the status text is the old text followed by exactly " \n " and the new label (its length grows by 3 plus the label's); nothing else changes |
| Negotiation.SendMessage | app/src/main/java/com/example/webrtcclient/MainActivity.kt:363-365 | exactly one "message" emit carrying the object is appended; nothing else changes |
| Negotiation.DoCall | app/src/main/java/com/example/webrtcclient/MainActivity.kt:341-361 | the state becomes Offering, its label is appended to the status, and exactly one offer request is appended; nothing else changes |
| Negotiation.MaybeStart | app/src/main/java/com/example/webrtcclient/MainActivity.kt:330-339 | `isStarted` becomes `isStarted \|\| isChannelReady`; an offer is requested, the state set to Offering and its label appended to the status iff not started, channel ready and initiator; otherwise state and status stay; no other field changes |
| Negotiation.StartStreamingVideo | app/src/main/java/com/example/webrtcclient/MainActivity.kt:422-443 | the local tracks are added, then an offer is requested iff not started, channel ready and initiator; `isStarted` becomes `isStarted \|\| isChannelReady`; the status gains the Offering line exactly when an offer is requested; no other field changes |
| Negotiation.Start | app/src/main/java/com/example/webrtcclient/MainActivity.kt:135-152 | flags false, retry armed with counter 0, empty status; the log creates the factory, opens the camera, creates the peer connection, connects; the device list is the one given |
| Negotiation.InitializeVariables | app/src/main/java/com/example/webrtcclient/MainActivity.kt:164-173 | the three flags and both retry fields are cleared; socket disconnected, then peer connection and factory disposed; state, status and devices stay |
| Negotiation.Clearview | app/src/main/java/com/example/webrtcclient/MainActivity.kt:174-176 | the status text becomes empty and nothing else changes |
| Negotiation.Restart | app/src/main/java/com/example/webrtcclient/MainActivity.kt:155-176 | all three flags false, `mNeedRetry` false, counter 0, status empty, `mState` unchanged; socket disconnected and peer connection and factory disposed before anything is created again |
| Negotiation.OnConnect | app/src/main/java/com/example/webrtcclient/MainActivity.kt:195-200 | emits "create or join" with the room, clears `mNeedRetry`, state Connected with its label appended to the status; no other field changes |
| Negotiation.OnCreated | app/src/main/java/com/example/webrtcclient/MainActivity.kt:202-206 | this peer becomes the initiator, the state Created with its label appended to the status; no effect and no other change |
| Negotiation.OnFull | app/src/main/java/com/example/webrtcclient/MainActivity.kt:208-211 | the state becomes Full with its label appended to the status; nothing else changes |
| Negotiation.OnJoin | app/src/main/java/com/example/webrtcclient/MainActivity.kt:213-222 | channel ready and started afterwards; if already started nothing is requested and the state is Joining; otherwise the tracks are added and the initiator requests exactly one offer; the status gains the joining line, then the Offering line for a starting initiator; no other field changes |
| Negotiation.OnMessage | app/src/main/java/com/example/webrtcclient/MainActivity.kt:224-276 | a missing type changes nothing; an offer sets CreatingAnswer, starts only a non-initiator that is channel ready, and applies the sdp as the remote OFFER; answer and candidate change nothing unless started, and then set ReceivedAnswer/ReceivedCandidate and apply the answer or candidate; a missing field stops after the state change; every state change appends its label to the status once; a started activity stays started; only `isStarted`, the state, the status and the log can change |
| Negotiation.OnDisconnected | app/src/main/java/com/example/webrtcclient/MainActivity.kt:290-304 | with `mNeedRetry` and a pre-incremented counter below 3, exactly one reconnect is scheduled after 5000 ms; otherwise the activity restarts |
| Negotiation.OnOfferCreated | app/src/main/java/com/example/webrtcclient/MainActivity.kt:344-359 | the offer is set locally and sent right after, without waiting for the local set to succeed |
| Negotiation.DoAnswer | app/src/main/java/com/example/webrtcclient/MainActivity.kt:306-309 | exactly one answer request is appended and nothing else changes (the whole answer chain: `Properties.AnswerCallbacks`) |
| Negotiation.OnAnswerCreated | app/src/main/java/com/example/webrtcclient/MainActivity.kt:309-311 | the created answer is set locally with the observer that sends it, and nothing else changes |
| Negotiation.OnAnswerLocalSet | app/src/main/java/com/example/webrtcclient/MainActivity.kt:311-324 | the answer message is sent, and nothing else changes |
| Negotiation.OnIceCandidate | app/src/main/java/com/example/webrtcclient/MainActivity.kt:464-478 | every local candidate is sent at once as a candidate message of the room |
| Negotiation.Destroy | app/src/main/java/com/example/webrtcclient/MainActivity.kt:121-133 | the retry fields reset; socket disconnected, then peer connection and factory disposed; flags, state, status and devices unchanged |
| Negotiation.StepAppends | app/src/main/java/com/example/webrtcclient/MainActivity.kt:195-282 | whichever handler the dispatch `Step` reaches, the camera list stays and the effect log only grows at its end (nothing logged is ever rewritten) |
| Invariants.InitializeVariablesDisposes | app/src/main/java/com/example/webrtcclient/MainActivity.kt:164-173 | from one live peer connection and factory, none is alive afterwards and no reconnect is counted |
| Invariants.BuildCreates | app/src/main/java/com/example/webrtcclient/MainActivity.kt:158-161 | rebuilding creates exactly one factory and one peer connection, never two alive at once |
| Invariants.RestartKeeps | app/src/main/java/com/example/webrtcclient/MainActivity.kt:155-162 | a restart from any state with one live factory and peer connection re-establishes the invariant |
| Invariants.StartValid | app/src/main/java/com/example/webrtcclient/MainActivity.kt:135-152 | `start()` establishes the invariant |
| Invariants.StepKeeps | app/src/main/java/com/example/webrtcclient/MainActivity.kt:195-282 | every relay event, callback and timer firing keeps the invariant (counter below 3, started implies channel ready, a reportable state shown by the status text, ordered log, one live factory and peer connection, counter equal to the reconnects since the last restart) |
| Invariants.BalancedAt | app/src/main/java/com/example/webrtcclient/MainActivity.kt:164-173 | after every prefix of a balanced log at most one object of the kind is alive |
| Invariants.OrderedAt | app/src/main/java/com/example/webrtcclient/MainActivity.kt:306-361 | in an ordered log every effect has its prerequisites earlier in the log |
| Invariants.RunKeeps | app/src/main/java/com/example/webrtcclient/MainActivity.kt:195-282 | any sequence of delivered events keeps the invariant |
| Invariants.ReachableValid | app/src/main/java/com/example/webrtcclient/MainActivity.kt:135-152 | every state reachable from `start()` satisfies the invariant |
| Invariants.DestroyReleases | app/src/main/java/com/example/webrtcclient/MainActivity.kt:121-133 | after `onDestroy` no peer connection and no factory are alive |
| Properties.RepeatedMaybeStart | app/src/main/java/com/example/webrtcclient/MainActivity.kt:330-339 | N >= 1 calls of `maybeStart` act as one and request at most one offer |
| Properties.InitiatorOnlyFromCreated | app/src/main/java/com/example/webrtcclient/MainActivity.kt:202-206 | no event other than `created` makes the activity the initiator |
| Properties.InitiatorOnlyClearedByRestart | app/src/main/java/com/example/webrtcclient/MainActivity.kt:164-173 | the initiator role is lost only by a disconnect that restarts |
| Properties.JoinTwice | app/src/main/java/com/example/webrtcclient/MainActivity.kt:213-222 | a second `join` requests nothing more |
| Properties.ThreeDisconnects | app/src/main/java/com/example/webrtcclient/MainActivity.kt:290-304 | from an armed retry with counter 0, two disconnects schedule one 5000 ms reconnect each and the third restarts, leaving all flags and retry fields reset and the status empty |
| Properties.DisconnectAfterConnectRestarts | app/src/main/java/com/example/webrtcclient/MainActivity.kt:195-200 | after a successful connect the next disconnect restarts at once |
| Properties.DisconnectAfterRestartRestarts | app/src/main/java/com/example/webrtcclient/MainActivity.kt:155-173 | after a restart the next disconnect restarts at once |
| Properties.ReachableBounds | app/src/main/java/com/example/webrtcclient/MainActivity.kt:88-94 | in every reachable state (`Bounded`) the counter is below 3 and equals the reconnects scheduled since the last restart, started implies channel ready, the status shows the state, and `mState` is never Joined, Connecting, ReceivedOffer or Done |
| Properties.NoTwoLive | app/src/main/java/com/example/webrtcclient/MainActivity.kt:155-173 | no prefix of a reachable log has two live peer connections or factories |
| Properties.SignallingOrder | app/src/main/java/com/example/webrtcclient/MainActivity.kt:306-361 | in a reachable log an answer is sent only after its local set, which follows an answer request, which follows an applied remote offer; an offer is sent right after it is set locally, once requested; every emit names the room |
| Properties.InOrder | app/src/main/java/com/example/webrtcclient/MainActivity.kt:306-361 | the same orderings, but the one of a sent offer, for any `Ordered` log |
| Properties.OfferInOrder | app/src/main/java/com/example/webrtcclient/MainActivity.kt:341-361 | in any `Ordered` log a sent offer is preceded immediately by its local set with the no-op observer |
| Properties.InitiatorOffers | app/src/main/java/com/example/webrtcclient/MainActivity.kt:202-222 | after connect, created and join the initiator is started in Offering and its created offer is set locally and sent |
| Properties.ResponderAppliesOffer | app/src/main/java/com/example/webrtcclient/MainActivity.kt:228-250 | a responder that only connected applies an offer as remote OFFER with the answering observer, without starting |
| Properties.OfferNotStarting | app/src/main/java/com/example/webrtcclient/MainActivity.kt:228-250 | any non-initiator whose channel is not ready applies an inbound offer as remote OFFER with the answering observer, reports CreatingAnswer and stays not started |
| Properties.AnswerCallbacks | app/src/main/java/com/example/webrtcclient/MainActivity.kt:306-328 | after the remote offer is set the answer is requested, set locally, and only then sent |
| Properties.NotStartedDropsCandidate | app/src/main/java/com/example/webrtcclient/MainActivity.kt:262-272 | a candidate reaching an activity that has not started changes nothing |
| Properties.StartedAppliesAnswer | app/src/main/java/com/example/webrtcclient/MainActivity.kt:251-261 | a started activity sets the answer as remote ANSWER and reports ReceivedAnswer |
| Properties.OneExchange | app/src/main/java/com/example/webrtcclient/MainActivity.kt:228-359 | between two activities: the last message the initiator emits is the offer the responder applies, every answer callback of the responder has been requested, the responder's last message is the answer, and the started initiator applies it as remote ANSWER |
| Activity.MainActivity.constructor | app/src/main/java/com/example/webrtcclient/MainActivity.kt:113-152 | the fields after `start()` are those of `Start`, and the invariant holds |
| Activity.MainActivity.SetStatusText | app/src/main/java/com/example/webrtcclient/MainActivity.kt:637-640 | only the status text changes: the line is appended after the separator |
| Activity.MainActivity.ChangeState | app/src/main/java/com/example/webrtcclient/MainActivity.kt:609-632 | only `mState` and the status text change |
| Activity.MainActivity.SendMessage | app/src/main/java/com/example/webrtcclient/MainActivity.kt:363-365 | one "message" emit is appended |
| Activity.MainActivity.DoCall | app/src/main/java/com/example/webrtcclient/MainActivity.kt:341-361 | state Offering, then the offer request |
| Activity.MainActivity.MaybeStart | app/src/main/java/com/example/webrtcclient/MainActivity.kt:330-339 | performs `Negotiation.MaybeStart` |
| Activity.MainActivity.StartStreamingVideo | app/src/main/java/com/example/webrtcclient/MainActivity.kt:422-443 | the tracks are added, then `maybeStart` |
| Activity.MainActivity.DoAnswer | app/src/main/java/com/example/webrtcclient/MainActivity.kt:306-309 | the answer request is appended |
| Activity.MainActivity.ConnectToSignallingServer | app/src/main/java/com/example/webrtcclient/MainActivity.kt:178-188 | a socket connect is appended |
| Activity.MainActivity.InitializePeerConnectionFactory | app/src/main/java/com/example/webrtcclient/MainActivity.kt:374-389 | a factory creation is appended |
| Activity.MainActivity.CreateVideoTrackFromCameraAndShowIt | app/src/main/java/com/example/webrtcclient/MainActivity.kt:391-415 | the capture starts on the device `createCameraCapturer` returns, if any |
| Activity.MainActivity.InitializePeerConnections | app/src/main/java/com/example/webrtcclient/MainActivity.kt:418-420 | a peer connection creation is appended |
| Activity.MainActivity.InitializeVariables | app/src/main/java/com/example/webrtcclient/MainActivity.kt:164-173 | retry fields and flags reset, then socket disconnect, peer connection and factory disposal |
| Activity.MainActivity.Clearview | app/src/main/java/com/example/webrtcclient/MainActivity.kt:174-176 | only the status text changes, to empty |
| Activity.MainActivity.Restart | app/src/main/java/com/example/webrtcclient/MainActivity.kt:155-162 | performs `Negotiation.Restart` |
| Activity.MainActivity.Disconnected | app/src/main/java/com/example/webrtcclient/MainActivity.kt:290-304 | performs the retry policy `Negotiation.OnDisconnected` |
| Activity.MainActivity.OnDestroy | app/src/main/java/com/example/webrtcclient/MainActivity.kt:121-133 | performs `Negotiation.Destroy` |
| Activity.MainActivity.OnConnect | app/src/main/java/com/example/webrtcclient/MainActivity.kt:195-200 | performs `Negotiation.OnConnect` and keeps the invariant |
| Activity.MainActivity.OnCreated | app/src/main/java/com/example/webrtcclient/MainActivity.kt:202-206 | performs `Negotiation.OnCreated` and keeps the invariant |
| Activity.MainActivity.OnFull | app/src/main/java/com/example/webrtcclient/MainActivity.kt:208-211 | performs `Negotiation.OnFull` and keeps the invariant |
| Activity.MainActivity.OnJoin | app/src/main/java/com/example/webrtcclient/MainActivity.kt:213-222 | performs `Negotiation.OnJoin` and keeps the invariant |
| Activity.MainActivity.OnMessage | app/src/main/java/com/example/webrtcclient/MainActivity.kt:224-276 | performs `Negotiation.OnMessage`, returning early where a field is missing, and keeps the invariant |
| Activity.MainActivity.OnDisconnect | app/src/main/java/com/example/webrtcclient/MainActivity.kt:277-282 | runs `disconnected` and keeps the invariant |
| Activity.MainActivity.OnRetryTimer | app/src/main/java/com/example/webrtcclient/MainActivity.kt:294-297 | connects again and keeps the invariant |
| Activity.MainActivity.OnOfferCreated | app/src/main/java/com/example/webrtcclient/MainActivity.kt:344-359 | sets the offer locally, sends it, and keeps the invariant |
| Activity.MainActivity.OnRemoteOfferSet | app/src/main/java/com/example/webrtcclient/MainActivity.kt:242-244 | runs `doAnswer` and keeps the invariant |
| Activity.MainActivity.OnAnswerCreated | app/src/main/java/com/example/webrtcclient/MainActivity.kt:310-311 | sets the answer locally with the sending observer and keeps the invariant |
| Activity.MainActivity.OnAnswerLocalSet | app/src/main/java/com/example/webrtcclient/MainActivity.kt:312-319 | sends the answer and keeps the invariant |
| Activity.MainActivity.OnIceCandidate | app/src/main/java/com/example/webrtcclient/MainActivity.kt:464-478 | sends the candidate message and keeps the invariant |

## Left out

- Android lifecycle, UI and permissions: `onCreate` is the constructor, which runs `start()` as if the permissions were granted; `hasPermissions`, `requestPermissions`, `onRequestPermissionsResult`, view binding and the Toast are not modelled.
- `runOnUiThread`: the status update is applied at once, not posted to the UI thread; the initial text of the status label is taken to be empty.
- Media setup (EGL, surface view, factory options, video and audio sources and tracks, transceivers, the STUN server, `onTrack`): each is one opaque effect (`Create`, `StartCapture`, `AddLocalTracks`) or left out. `startStreamingVideo` is modelled as if the tracks exist; when no camera was found the code would fail on the uninitialised track, and the model does not capture that failure.
- `createVideoCapturer` and `useCamera2`: which camera enumerator is used is not modelled; its device list (name and facing of each camera) is a parameter of the activity.
- The socket.io transport: URL, path, auth token, peer id query, `IO.Options`, the re-registration of the handlers on every connect, the library's own automatic reconnection, and the `URISyntaxException` path are not modelled; a connect is the `ConnectSocket` effect.
- The `Handler.postDelayed` timer: scheduling is the `ScheduleReconnect(5000)` effect and its firing is the `RetryTimer` event; real time is not modelled.
- JSON: objects are ordered key/value lists; `getString` on a number and `getInt` on text are treated as failures, where org.json would convert them; a cast failure of the inbound payload is not modelled. Building the outbound messages cannot fail here.
- SDP failure callbacks (`onCreateFailure`, `onSetFailure`): they only log, so they are not events of the model.
- Logging.
- Threads: socket events and peer-connection callbacks are treated as one serialised sequence of events.
- Negotiation.Delivered: a callback is assumed to arrive only for an observer the activity handed out; the library's delivery guarantees beyond that are not modelled.
- `mRetryCounter` is a 32-bit Int in the source; the model uses an unbounded integer, which is exact because the counter provably stays below 3.
- Activity.MainActivity.OnDestroy: `onDestroy` is terminal in the model, since `Valid` no longer holds after it and every handler requires it; in the code the reconnect Runnable is never removed from `mHandler`, so a reconnect scheduled before `onDestroy` still runs `connectToSignallingServer` afterwards, which the model does not capture.
- The code does not buffer early candidates, report negotiation errors, detect a duplicate answer, signal that the retries are exhausted or cancel a scheduled reconnect, so the model has none of these.
