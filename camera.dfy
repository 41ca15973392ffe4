/**
 * `createCameraCapturer`: the device enumerator is a list of
 * (device name, is front facing) pairs; the capturer is opened on the
 * first front-facing device, otherwise on the first other device.
 */
module Camera {
  import opened Wrappers

  type Device = (string, bool)

  /** The index of the first device whose facing is `front`, if any. */
  function FirstFacing(devices: seq<Device>, front: bool): (r: Option<nat>)
    ensures r.Some? ==> r.value < |devices| && devices[r.value].1 == front
    ensures r.Some? ==> forall j :: 0 <= j < r.value ==> devices[j].1 != front
    ensures r.None? ==> forall j :: 0 <= j < |devices| ==> devices[j].1 != front
  {
    if devices == [] then None
    else if devices[0].1 == front then Some(0)
    else match FirstFacing(devices[1..], front)
      case None => None
      case Some(i) => Some(i + 1)
  }

  /** The device the capturer is created on. */
  function SelectCamera(devices: seq<Device>): (r: Option<string>)
    ensures r.Some? <==> devices != []
  {
    match FirstFacing(devices, true)
    case Some(i) => Some(devices[i].0)
    case None =>
      match FirstFacing(devices, false)
      case Some(j) => Some(devices[j].0)
      case None => None
  }

  /** A front-facing device, when one exists, wins over every other device. */
  lemma FrontFacingFirst(devices: seq<Device>, i: nat)
    requires i < |devices| && devices[i].1
    requires forall j :: 0 <= j < i ==> !devices[j].1
    ensures SelectCamera(devices) == Some(devices[i].0)
  {
    var k := FirstFacing(devices, true);
    assert k.Some?;
  }

  /** With no front-facing device, the first device of the list is chosen. */
  lemma NoFrontFacing(devices: seq<Device>)
    requires devices != []
    requires forall j :: 0 <= j < |devices| ==> !devices[j].1
    ensures SelectCamera(devices) == Some(devices[0].0)
  {
    assert FirstFacing(devices, true).None?;
  }

  /** The two loops of `createCameraCapturer`, each returning early on a match. */
  method CreateCameraCapturer(devices: seq<Device>) returns (r: Option<string>)
    ensures r == SelectCamera(devices)
    ensures r.Some? <==> devices != []
    ensures r.Some? ==> exists i :: 0 <= i < |devices| && devices[i].0 == r.value
  {
    for i := 0 to |devices|
      invariant forall j :: 0 <= j < i ==> !devices[j].1
    {
      if devices[i].1 {
        FrontFacingFirst(devices, i);
        return Some(devices[i].0);
      }
    }
    for i := 0 to |devices|
      invariant forall j :: 0 <= j < i ==> devices[j].1
    {
      if !devices[i].1 {
        NoFrontFacing(devices);
        return Some(devices[i].0);
      }
    }
    r := None;
  }
}
