/**
 * JSON objects as the activity builds and reads them: an ordered list of
 * (key, value) pairs, and the three outbound signalling messages.
 */
module Messages {
  import opened Wrappers

  datatype Field = Text(text: string) | Number(number: int)

  type JsonObject = seq<(string, Field)>

  function Keys(obj: JsonObject): (ks: seq<string>)
    ensures |ks| == |obj|
    ensures forall i :: 0 <= i < |obj| ==> ks[i] == obj[i].0
  {
    if obj == [] then [] else Keys(obj[..|obj| - 1]) + [obj[|obj| - 1].0]
  }

  /** The value bound to `key`; a later binding wins (`LookupLastWins`), as `put` replaces an earlier one. */
  function Lookup(obj: JsonObject, key: string): (r: Option<Field>)
    ensures r.None? <==> forall i :: 0 <= i < |obj| ==> obj[i].0 != key
    ensures r.Some? ==> exists i :: 0 <= i < |obj| && obj[i] == (key, r.value)
  {
    if obj == [] then None
    else if obj[|obj| - 1].0 == key then Some(obj[|obj| - 1].1)
    else
      var init := obj[..|obj| - 1];
      assert forall i :: 0 <= i < |init| ==> init[i] == obj[i];
      Lookup(init, key)
  }

  /** The last binding of a key is the one found: `put` replaces an earlier value. */
  lemma {:induction false} LookupLastWins(obj: JsonObject, key: string, i: nat)
    requires i < |obj| && obj[i].0 == key
    requires forall j :: i < j < |obj| ==> obj[j].0 != key
    ensures Lookup(obj, key) == Some(obj[i].1)
    decreases |obj|
  {
    if i < |obj| - 1 {
      var init := obj[..|obj| - 1];
      assert init[i] == obj[i];
      assert forall j :: i < j < |init| ==> init[j] == obj[j];
      LookupLastWins(init, key, i);
    }
  }

  /** In an object whose keys are distinct, a lookup finds the value stored under the key. */
  lemma LookupDistinct(obj: JsonObject, i: nat)
    requires i < |obj|
    requires forall j :: 0 <= j < |obj| && j != i ==> obj[j].0 != obj[i].0
    ensures Lookup(obj, obj[i].0) == Some(obj[i].1)
  {
  }

  /** `getString`: fails (None) on a missing key and on a field that is not text. */
  function GetString(obj: JsonObject, key: string): (r: Option<string>)
    ensures r.Some? <==> Lookup(obj, key).Some? && Lookup(obj, key).value.Text?
    ensures r.Some? ==> Lookup(obj, key) == Some(Text(r.value))
  {
    match Lookup(obj, key)
    case Some(Text(s)) => Some(s)
    case _ => None
  }

  /** `getInt`: fails (None) on a missing key and on a field that is not a number. */
  function GetInt(obj: JsonObject, key: string): (r: Option<int>)
    ensures r.Some? <==> Lookup(obj, key).Some? && Lookup(obj, key).value.Number?
    ensures r.Some? ==> Lookup(obj, key) == Some(Number(r.value))
  {
    match Lookup(obj, key)
    case Some(Number(n)) => Some(n)
    case _ => None
  }

  /** The session description message built in `doCall` and in `doAnswer`:
      `{type: kind, room, sdp}`. */
  function SdpMessage(kind: string, room: string, sdp: string): JsonObject {
    [("type", Text(kind)), ("room", Text(room)), ("sdp", Text(sdp))]
  }

  /** What a reader of a session description message finds in it. */
  lemma SdpMessageFields(kind: string, room: string, sdp: string)
    ensures var m := SdpMessage(kind, room, sdp);
      && Keys(m) == ["type", "room", "sdp"]
      && GetString(m, "type") == Some(kind)
      && GetString(m, "room") == Some(room)
      && GetString(m, "sdp") == Some(sdp)
  {
    var m := SdpMessage(kind, room, sdp);
    LookupDistinct(m, 0); LookupDistinct(m, 1); LookupDistinct(m, 2);
  }

  /** The offer sent by `doCall`. */
  function OfferMessage(room: string, sdp: string): JsonObject {
    SdpMessage("offer", room, sdp)
  }

  /** The answer sent by `doAnswer`. */
  function AnswerMessage(room: string, sdp: string): JsonObject {
    SdpMessage("answer", room, sdp)
  }

  /** The candidate built in `onIceCandidate`: `{type: "candidate", room, id, label, candidate}`. */
  function CandidateMessage(room: string, mid: string, index: int, candidate: string): JsonObject {
    [("type", Text("candidate")), ("room", Text(room)), ("id", Text(mid)),
     ("label", Number(index)), ("candidate", Text(candidate))]
  }

  /** What a reader of a candidate message finds in it. */
  lemma CandidateMessageFields(room: string, mid: string, index: int, candidate: string)
    ensures var m := CandidateMessage(room, mid, index, candidate);
      && Keys(m) == ["type", "room", "id", "label", "candidate"]
      && GetString(m, "type") == Some("candidate")
      && GetString(m, "room") == Some(room)
      && GetString(m, "id") == Some(mid)
      && GetInt(m, "label") == Some(index)
      && GetString(m, "candidate") == Some(candidate)
      && GetString(m, "sdp") == None
  {
    var m := CandidateMessage(room, mid, index, candidate);
    var keys := ["type", "room", "id", "label", "candidate"];
    assert forall i :: 0 <= i < |m| ==> m[i].0 == keys[i];
    LookupDistinct(m, 0); LookupDistinct(m, 1); LookupDistinct(m, 2);
    LookupDistinct(m, 3); LookupDistinct(m, 4);
    assert Lookup(m, "sdp").None?;
  }
}
