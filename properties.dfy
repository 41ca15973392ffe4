/**
 * Properties of the signalling core that relate several calls: repeated
 * starts, role changes, the retry sequence, the order of the negotiation
 * effects in every reachable log, and one offer/answer exchange between
 * two activities.
 */
module Properties {
  import opened Wrappers
  import opened Status
  import opened Messages
  import opened Negotiation
  import opened Invariants

  /** `maybeStart` called `n` times in a row. */
  function MaybeStartTimes(m: Machine, n: nat): Machine
    decreases n
  {
    if n == 0 then m else MaybeStartTimes(MaybeStart(m), n - 1)
  }

  function Occurrences(log: seq<Effect>, e: Effect): nat
    decreases |log|
  {
    if log == [] then 0
    else Occurrences(log[..|log| - 1], e) + (if log[|log| - 1] == e then 1 else 0)
  }

  /** Any number of calls of `maybeStart` act like one and request at most one offer. */
  lemma {:induction false} RepeatedMaybeStart(m: Machine, n: nat)
    requires n >= 1
    ensures MaybeStartTimes(m, n) == MaybeStart(m)
    ensures Occurrences(MaybeStartTimes(m, n).log, CreateOffer) <= Occurrences(m.log, CreateOffer) + 1
    decreases n
  {
    if n > 1 {
      RepeatedMaybeStart(MaybeStart(m), n - 1);
    }
    var r := MaybeStart(m);
    if r.log != m.log {
      assert r.log == m.log + [CreateOffer];
      assert r.log[..|r.log| - 1] == m.log;
    }
  }

  /** Only `created` makes this activity the initiator. */
  lemma InitiatorOnlyFromCreated(m: Machine, e: Event)
    requires !m.isInitiator && Step(m, e).isInitiator
    ensures e == RelayCreated
  {
    match e
    case RelayDisconnect =>
    case RelayJoin =>
    case RelayMessage(msg) =>
    case _ =>
  }

  /** The initiator role is only given up by a disconnect that restarts. */
  lemma InitiatorOnlyClearedByRestart(m: Machine, e: Event)
    requires m.isInitiator && !Step(m, e).isInitiator
    ensures e == RelayDisconnect && !(m.needRetry && m.retryCounter + 1 < MaxRetry)
    ensures Step(m, e) == Restart(m)
  {
    match e
    case RelayDisconnect =>
    case RelayJoin =>
    case RelayMessage(msg) =>
    case _ =>
  }

  /** A second `join` starts nothing: streaming and the offer happen once. */
  lemma JoinTwice(m: Machine)
    ensures OnJoin(OnJoin(m)).log == OnJoin(m).log
    ensures OnJoin(OnJoin(m)).isStarted
  {
  }

  /**
   * Disconnects before any successful connect: the first two schedule one
   * reconnect each after 5000 ms, the third restarts.
   */
  lemma ThreeDisconnects(m: Machine)
    requires m.needRetry && m.retryCounter == 0
    ensures var r := Step(Step(Step(Step(Step(m, RelayDisconnect), RetryTimer), RelayDisconnect), RetryTimer), RelayDisconnect);
      && r.log == m.log + [ScheduleReconnect(5000), ConnectSocket, ScheduleReconnect(5000), ConnectSocket]
                        + RestartEffects(m.devices)
      && !r.isInitiator && !r.isChannelReady && !r.isStarted
      && !r.needRetry && r.retryCounter == 0 && r.status == ""
  {
    var m1 := OnDisconnected(m);
    assert Step(m, RelayDisconnect) == m1;
    assert m1 == m.(retryCounter := 1, log := m.log + [ScheduleReconnect(5000)]);
    var m2 := ConnectToSignallingServer(m1);
    assert Step(m1, RetryTimer) == m2;
    var m3 := OnDisconnected(m2);
    assert Step(m2, RelayDisconnect) == m3;
    assert m3 == m2.(retryCounter := 2, log := m2.log + [ScheduleReconnect(5000)]);
    var m4 := ConnectToSignallingServer(m3);
    assert Step(m3, RetryTimer) == m4;
    var m5 := OnDisconnected(m4);
    assert Step(m4, RelayDisconnect) == m5;
    assert m5 == Restart(m4);
    assert m4.log == m.log + [ScheduleReconnect(5000), ConnectSocket, ScheduleReconnect(5000), ConnectSocket];
  }

  /** A successful `connect` clears `mNeedRetry`, so the next disconnect restarts at once. */
  lemma DisconnectAfterConnectRestarts(m: Machine)
    ensures Step(OnConnect(m), RelayDisconnect) == Restart(OnConnect(m))
  {
  }

  /** `restart` does not set `mNeedRetry` again, so a restarted activity never retries. */
  lemma DisconnectAfterRestartRestarts(m: Machine)
    ensures Step(Restart(m), RelayDisconnect) == Restart(Restart(m))
  {
  }

  /**
   * In every reachable state the counter stays below `MAX_WS_CONNECT_RETRY_CNT`,
   * equals the reconnects scheduled since the last restart, at most two of
   * them, and `mState` is never one of the states no handler assigns.
   */
  lemma ReachableBounds(devices: seq<Camera.Device>, events: seq<Event>)
    requires Admissible(Start(devices), events)
    ensures Bounded(Run(Start(devices), events))
  {
    ReachableValid(devices, events);
    ValidBounded(Run(Start(devices), events));
  }

  /** The facts about the retry fields, the flags and the state that `ReachableBounds` reports. */
  predicate Bounded(m: Machine) {
    && 0 <= m.retryCounter < MaxRetry
    && SinceReset(m.log) == m.retryCounter <= 2
    && (m.isStarted ==> m.isChannelReady)
    && !m.state.Joined? && !m.state.Connecting? && !m.state.ReceivedOffer? && !m.state.Done?
    && ShowsState(m.status, m.state)
  }

  lemma ValidBounded(m: Machine)
    requires Valid(m)
    ensures Bounded(m)
  {
  }

  /** At no point of a reachable log are two peer connections or two factories alive. */
  lemma NoTwoLive(devices: seq<Camera.Device>, events: seq<Event>, k: nat)
    requires Admissible(Start(devices), events)
    requires k <= |Run(Start(devices), events).log|
    ensures var log := Run(Start(devices), events).log;
      0 <= Live(log[..k], Peer) <= 1 && 0 <= Live(log[..k], Factory) <= 1
  {
    var log := Run(Start(devices), events).log;
    ReachableValid(devices, events);
    BalancedAt(log, Peer, k);
    BalancedAt(log, Factory, k);
  }

  /**
   * The order of the negotiation effects in a reachable log: an answer is
   * sent only after it was set locally, it is set locally only after an
   * answer was requested, and that only after a remote offer was applied; an
   * offer is sent right after it was set locally, once an offer was
   * requested; every message is addressed to the configured room.
   */
  lemma SignallingOrder(devices: seq<Camera.Device>, events: seq<Event>, i: nat)
    requires Admissible(Start(devices), events)
    requires i < |Run(Start(devices), events).log|
    ensures var log := Run(Start(devices), events).log;
      && (log[i].Emit? ==> Addressed(log[i].payload))
      && (SentSdp(log[i], "answer").Some? ==>
            SetLocal(SentSdp(log[i], "answer").value, SendAnswerOnSuccess) in log[..i])
      && (log[i].SetLocal? && log[i].observer == SendAnswerOnSuccess ==> CreateAnswer in log[..i])
      && (log[i] == CreateAnswer ==> OfferApplied(log[..i]))
      && (SentSdp(log[i], "offer").Some? ==>
            0 < i && log[i - 1] == SetLocal(SentSdp(log[i], "offer").value, NoOp))
      && (log[i].SetLocal? && log[i].observer == NoOp ==> CreateOffer in log[..i])
  {
    var log := Run(Start(devices), events).log;
    ReachableValid(devices, events);
    InOrder(log, i);
    if SentSdp(log[i], "offer").Some? {
      OfferInOrder(log, i);
    }
  }

  /** The orderings above, for any log that is `Ordered`, but the one of a sent offer. */
  lemma InOrder(log: seq<Effect>, i: nat)
    requires Ordered(log) && i < |log|
    ensures && (log[i].Emit? ==> Addressed(log[i].payload))
      && (SentSdp(log[i], "answer").Some? ==>
            SetLocal(SentSdp(log[i], "answer").value, SendAnswerOnSuccess) in log[..i])
      && (log[i].SetLocal? && log[i].observer == SendAnswerOnSuccess ==> CreateAnswer in log[..i])
      && (log[i] == CreateAnswer ==> OfferApplied(log[..i]))
      && (log[i].SetLocal? && log[i].observer == NoOp ==> CreateOffer in log[..i])
  {
    OrderedAt(log, i);
  }

  /** In an `Ordered` log a sent offer comes right after it was set locally. */
  lemma OfferInOrder(log: seq<Effect>, i: nat)
    requires Ordered(log) && i < |log| && SentSdp(log[i], "offer").Some?
    ensures 0 < i && log[i - 1] == SetLocal(SentSdp(log[i], "offer").value, NoOp)
  {
    OrderedAt(log, i);
    var prefix := log[..i];
    assert prefix[|prefix| - 1] == log[i - 1];
  }

  /** The first activity in the room: `connect`, `created`, then the second peer's `join`. */
  function InitiatorJoined(devices: seq<Camera.Device>): Machine {
    Step(Step(Step(Start(devices), RelayConnect), RelayCreated), RelayJoin)
  }

  /** The second activity in the room receives the first one's offer (and no `join`). */
  function ResponderOffered(devices: seq<Camera.Device>, offer: string): Machine {
    Step(Step(Start(devices), RelayConnect), RelayMessage(OfferMessage(Room, offer)))
  }

  /** The initiator is started, has asked for an offer, and sends it once created. */
  lemma InitiatorOffers(devices: seq<Camera.Device>, offer: string)
    ensures var a1 := InitiatorJoined(devices);
      && a1.isInitiator && a1.isStarted && a1.state == Offering
      && Delivered(a1, OfferCreated(offer))
      && Step(a1, OfferCreated(offer)).log
           == a1.log + [SetLocal(offer, NoOp), Emit("message", Json(OfferMessage(Room, offer)))]
      && Step(a1, OfferCreated(offer)).isStarted
  {
    var a0 := Step(Step(Start(devices), RelayConnect), RelayCreated);
    assert a0.isInitiator && !a0.isStarted && a0.isChannelReady == false;
    var a1 := Step(a0, RelayJoin);
    assert a1.log == a0.log + [AddLocalTracks, CreateOffer];
    assert a1.log[|a1.log| - 1] == CreateOffer;
  }

  /** The responder applies the offer as the remote description, with the observer that answers. */
  lemma ResponderAppliesOffer(devices: seq<Camera.Device>, offer: string)
    ensures var b1 := ResponderOffered(devices, offer);
      && !b1.isInitiator && !b1.isStarted && b1.state == CreatingAnswer
      && b1.log == Step(Start(devices), RelayConnect).log + [SetRemote(OFFER, offer, AnswerOnSuccess)]
      && Delivered(b1, RemoteOfferSet)
  {
    var b0 := Step(Start(devices), RelayConnect);
    assert !b0.isInitiator && !b0.isChannelReady && !b0.isStarted;
    OfferNotStarting(b0, offer);
  }

  /** An offer reaching a peer whose channel is not ready is applied without starting it. */
  lemma OfferNotStarting(m: Machine, offer: string)
    requires !m.isInitiator && !m.isChannelReady && !m.isStarted
    ensures var r := Step(m, RelayMessage(OfferMessage(Room, offer)));
      && !r.isInitiator && !r.isStarted && r.state == CreatingAnswer
      && r.log == m.log + [SetRemote(OFFER, offer, AnswerOnSuccess)]
      && Delivered(r, RemoteOfferSet)
  {
    SdpMessageFields("offer", Room, offer);
    var r := Step(m, RelayMessage(OfferMessage(Room, offer)));
    assert r.log == m.log + [SetRemote(OFFER, offer, AnswerOnSuccess)];
    assert r.log[|m.log|] == SetRemote(OFFER, offer, AnswerOnSuccess);
  }

  /**
   * The three callbacks after the remote offer is set: the answer is
   * requested, set locally and only then sent.
   */
  lemma AnswerCallbacks(m: Machine, answer: string)
    ensures var b := Step(Step(Step(m, RemoteOfferSet), AnswerCreated(answer)), AnswerLocalSet(answer));
      && b.log == m.log + [CreateAnswer, SetLocal(answer, SendAnswerOnSuccess),
                           Emit("message", Json(AnswerMessage(Room, answer)))]
      && b.(log := m.log) == m
  {
    var b1 := DoAnswer(m);
    assert Step(m, RemoteOfferSet) == b1;
    var b2 := OnAnswerCreated(b1, answer);
    assert Step(b1, AnswerCreated(answer)) == b2;
    var b3 := OnAnswerLocalSet(b2, answer);
    assert Step(b2, AnswerLocalSet(answer)) == b3;
  }

  /** An activity that has not started drops an inbound candidate: nothing at all changes. */
  lemma NotStartedDropsCandidate(m: Machine, mid: string, index: int, cand: string)
    requires !m.isStarted
    ensures Step(m, RelayMessage(CandidateMessage(Room, mid, index, cand))) == m
  {
    var msg := CandidateMessage(Room, mid, index, cand);
    CandidateMessageFields(Room, mid, index, cand);
    CandidateIgnored(m, msg);
  }

  lemma CandidateIgnored(m: Machine, msg: JsonObject)
    requires !m.isStarted && GetString(msg, "type") == Some("candidate")
    ensures Step(m, RelayMessage(msg)) == m
  {
    assert Step(m, RelayMessage(msg)) == OnMessage(m, msg);
  }

  /** A started activity applies an inbound answer as the remote description. */
  lemma StartedAppliesAnswer(m: Machine, answer: string)
    requires m.isStarted
    ensures Step(m, RelayMessage(AnswerMessage(Room, answer))).state == ReceivedAnswer
    ensures Step(m, RelayMessage(AnswerMessage(Room, answer))).log == m.log + [SetRemote(ANSWER, answer, NoOp)]
  {
    SdpMessageFields("answer", Room, answer);
  }

  /** The initiator once its offer was created: set locally and sent. */
  function InitiatorSentOffer(devices: seq<Camera.Device>, offer: string): Machine {
    Step(InitiatorJoined(devices), OfferCreated(offer))
  }

  /** The responder after the three answer callbacks that follow the applied offer. */
  function ResponderSentAnswer(devices: seq<Camera.Device>, offer: string, answer: string): Machine {
    var b1 := ResponderOffered(devices, offer);
    Step(Step(Step(b1, RemoteOfferSet), AnswerCreated(answer)), AnswerLocalSet(answer))
  }

  /**
   * One offer/answer exchange between two activities in the room: the last
   * message the initiator emits is the offer the responder applies; every
   * callback the responder then runs has been requested; the last message
   * the responder emits is the answer, and the initiator, being started,
   * applies it as the remote ANSWER.
   */
  lemma OneExchange(devA: seq<Camera.Device>, devB: seq<Camera.Device>, offer: string, answer: string)
    ensures var a := InitiatorSentOffer(devA, offer);
      |a.log| > 0 && a.log[|a.log| - 1] == Emit("message", Json(OfferMessage(Room, offer)))
    ensures var b1 := ResponderOffered(devB, offer);
      var b2 := Step(b1, RemoteOfferSet);
      var b3 := Step(b2, AnswerCreated(answer));
      Delivered(b1, RemoteOfferSet) && Delivered(b2, AnswerCreated(answer))
      && Delivered(b3, AnswerLocalSet(answer))
    ensures var b := ResponderSentAnswer(devB, offer, answer);
      |b.log| > 0 && b.log[|b.log| - 1] == Emit("message", Json(AnswerMessage(Room, answer)))
    ensures var a := Step(InitiatorSentOffer(devA, offer), RelayMessage(AnswerMessage(Room, answer)));
      a.state == ReceivedAnswer
      && a.log == InitiatorSentOffer(devA, offer).log + [SetRemote(ANSWER, answer, NoOp)]
  {
    InitiatorOffers(devA, offer);
    var a := InitiatorSentOffer(devA, offer);
    StartedAppliesAnswer(a, answer);
    ResponderAppliesOffer(devB, offer);
    var b1 := ResponderOffered(devB, offer);
    AnswerCallbacks(b1, answer);
    var b2 := Step(b1, RemoteOfferSet);
    assert b2.log == b1.log + [CreateAnswer];
    assert b2.log[|b1.log|] == CreateAnswer;
    var b3 := Step(b2, AnswerCreated(answer));
    assert b3.log == b2.log + [SetLocal(answer, SendAnswerOnSuccess)];
    assert b3.log[|b2.log|] == SetLocal(answer, SendAnswerOnSuccess);
  }
}
