/**
 * The reporting state of the activity (`SigState`) and the text that
 * `changeState` appends to the status label for each state.
 */
module Status {
  import opened Wrappers

  datatype SigState =
    | Disconnected
    | Connecting
    | Connected
    | Created
    | Joining
    | Joined
    | Full
    | Offering
    | ReceivedOffer
    | ReceivedAnswer
    | ReceivedCandidate
    | CreatingAnswer
    | Done

  /** The label chosen by the `when` in `changeState`; `Disconnected` falls to its empty `else`. */
  function Label(s: SigState): (r: string)
    ensures r == "" <==> s.Disconnected?
  {
    match s
    case Connected => "Connected"
    case Connecting => "Connecting..."
    case Created => "Created"
    case Joining => "joining..."
    case Joined => "Joined"
    case Full => "Full"
    case Offering => "Offering..."
    case CreatingAnswer => "CreatingAnswer..."
    case ReceivedOffer => "ReceivedOffer"
    case ReceivedAnswer => "ReceivedAnswer"
    case ReceivedCandidate => "ReceivedCandidate"
    case Done => "OK!"
    case Disconnected => ""
  }

  /** Reads a label back as the state it reports; the inverse of `Label`. */
  function StateOfLabel(t: string): Option<SigState> {
    if t == "Connected" then Some(Connected)
    else if t == "Connecting..." then Some(Connecting)
    else if t == "Created" then Some(Created)
    else if t == "joining..." then Some(Joining)
    else if t == "Joined" then Some(Joined)
    else if t == "Full" then Some(Full)
    else if t == "Offering..." then Some(Offering)
    else if t == "CreatingAnswer..." then Some(CreatingAnswer)
    else if t == "ReceivedOffer" then Some(ReceivedOffer)
    else if t == "ReceivedAnswer" then Some(ReceivedAnswer)
    else if t == "ReceivedCandidate" then Some(ReceivedCandidate)
    else if t == "OK!" then Some(Done)
    else if t == "" then Some(Disconnected)
    else None
  }

  /** Every label names exactly one state, so the status text says which states were reported. */
  lemma LabelRoundTrip(s: SigState)
    ensures StateOfLabel(Label(s)) == Some(s)
  {
  }

  /** The states that some handler of the activity assigns to `mState`. */
  predicate Assigned(s: SigState) {
    s.Connected? || s.Created? || s.Full? || s.Joining? || s.CreatingAnswer?
    || s.ReceivedAnswer? || s.ReceivedCandidate? || s.Offering?
  }

  /** The states `mState` can hold: the initial `Disconnected` and the assigned ones. */
  predicate Reportable(s: SigState) {
    s.Disconnected? || Assigned(s)
  }

  /** `setStatusText`: the old text, a separator, then the new line. */
  function AppendLine(text: string, line: string): (r: string)
    ensures |r| == |text| + 3 + |line|
    ensures r[..|text|] == text && r[|text|..|text| + 3] == " \n " && r[|text| + 3..] == line
  {
    text + " \n " + line
  }

  predicate EndsWith(text: string, suffix: string) {
    |suffix| <= |text| && text[|text| - |suffix|..] == suffix
  }

  /** The status label is empty or its last line reports the state `s`. */
  predicate ShowsState(text: string, s: SigState) {
    text == "" || EndsWith(text, " \n " + Label(s))
  }
}
