/** The device records shared by the device handler and the printer: an enumerated camera,
    one entry of the real-to-virtual mapping, and the two string conventions tying them
    together (the number in a `/dev/videoN` path, the card label of a virtual device). */
module Listing {
  import opened Common
  import opened Strings

  const DevicePrefix: string := "/dev/video"
  const CardPrefix: string := "MeetingCam"

  /** An available camera: its path (a device node, or an OAK device's mxid) and its label. */
  datatype Device = Device(path: string, name: string)

  /** One value of `device_map`: a real camera and the virtual camera fed from it. */
  datatype MappingEntry = MappingEntry(pathReal: string, labelReal: string, pathVirtual: string, labelVirtual: string)

  /** `int(path.replace("/dev/video", ""))`; None is the ValueError case. */
  function PathNumber(path: string): Option<int>
  {
    ParseInt(RemoveAll(path, DevicePrefix))
  }

  /** The path numbers of all devices, None as soon as one of them is not a number. */
  function PathNumbers(devices: seq<Device>): (r: Option<seq<int>>)
    ensures r.None? <==> exists k :: 0 <= k < |devices| && PathNumber(devices[k].path).None?
    ensures r.Some? ==> |r.value| == |devices|
    ensures r.Some? ==> forall k :: 0 <= k < |devices| ==> PathNumber(devices[k].path) == Some(r.value[k])
  {
    if devices == [] then Some([])
    else
      var rest := PathNumbers(devices[1..]);
      assert forall k :: 1 <= k < |devices| ==> devices[k] == devices[1..][k - 1];
      match PathNumber(devices[0].path)
      case None => None
      case Some(n) => if rest.None? then None else Some([n] + rest.value)
  }

  /** `f"MeetingCam{tag} {label}"`, the card label given to a virtual device. */
  function CardLabel(tag: string, name: string): string
  {
    CardPrefix + tag + " " + name
  }

  /** The number of `/dev/videoN` is N. */
  lemma PathNumberOfNode(n: nat)
    ensures PathNumber(DevicePrefix + NatToString(n)) == Some(n)
  {
    RemoveDevicePrefix(NatToString(n));
    ParseIntOfIntToString(n);
  }
}
