/** The two computations of print.py's `Printer` that decide what is shown: the device
    table (one row per real camera) and the single-device `modprobe` commands that create a
    virtual counterpart. Console styling is left out; the printed content is returned. */
module Printer {
  import opened Common
  import opened Strings
  import opened Listing
  import Dicts

  /** A row of the device table: camera name, camera path, virtual camera name (None when
      the camera has no virtual counterpart). */
  datatype Row = Row(cameraName: string, cameraPath: string, virtualName: Option<string>)

  /** Entry `e` is the last mapping entry whose real path is `path`. */
  predicate LastEntryFor(mapping: seq<MappingEntry>, path: string, e: int)
  {
    0 <= e < |mapping| && mapping[e].pathReal == path &&
    forall e' :: e < e' < |mapping| ==> mapping[e'].pathReal != path
  }

  /** The virtual label of the last mapping entry whose real path is `path`. */
  function LastVirtualLabel(mapping: seq<MappingEntry>, path: string): (r: Option<string>)
    ensures r.None? <==> forall e :: 0 <= e < |mapping| ==> mapping[e].pathReal != path
    ensures r.Some? ==>
      exists e :: LastEntryFor(mapping, path, e) && mapping[e].labelVirtual == r.value
    decreases |mapping|
  {
    if mapping == [] then None
    else
      var n := |mapping| - 1;
      if mapping[n].pathReal == path then
        assert LastEntryFor(mapping, path, n);
        Some(mapping[n].labelVirtual)
      else
        var r := LastVirtualLabel(mapping[..n], path);
        assert forall e :: 0 <= e < n ==> mapping[..n][e] == mapping[e];
        assert forall e :: LastEntryFor(mapping[..n], path, e) ==> LastEntryFor(mapping, path, e);
        r
  }

  /** The device table: one row per real camera, in enumeration order, with the virtual
      label of its last mapping entry. */
  function Table(mapping: seq<MappingEntry>, cameras: seq<Device>): (r: seq<Row>)
    ensures |r| == |cameras|
    ensures forall k :: 0 <= k < |cameras| ==>
      r[k].cameraName == cameras[k].name && r[k].cameraPath == cameras[k].path &&
      r[k].virtualName == LastVirtualLabel(mapping, cameras[k].path)
  {
    seq(|cameras|, k requires 0 <= k < |cameras| => Row(cameras[k].name, cameras[k].path, LastVirtualLabel(mapping, cameras[k].path)))
  }

  /** `available_devices`: for each real camera, in enumeration order, scan the whole mapping
      and keep the virtual label of every entry with that real path, so the last one wins. */
  method AvailableDevices(mapping: seq<MappingEntry>, cameras: seq<Device>) returns (rows: seq<Row>)
    ensures rows == Table(mapping, cameras)
  {
    rows := [];
    var k := 0;
    while k < |cameras|
      invariant k <= |cameras| && |rows| == k
      invariant forall i :: 0 <= i < k ==> rows[i] == Table(mapping, cameras)[i]
    {
      var rp, rn := cameras[k].path, cameras[k].name;
      var virtualName: Option<string> := None;
      var e := 0;
      while e < |mapping|
        invariant e <= |mapping|
        invariant virtualName == LastVirtualLabel(mapping[..e], rp)
      {
        assert mapping[..e + 1][..e] == mapping[..e];
        if mapping[e].pathReal == rp {
          virtualName := Some(mapping[e].labelVirtual);
        }
        e := e + 1;
      }
      assert mapping[..e] == mapping;
      rows := rows + [Row(rn, rp, virtualName)];
      k := k + 1;
    }
    assert rows == Table(mapping, cameras);
  }

  /** The single-device command for a webcam with path number `id`. */
  function WebcamCommand(id: int, name: string): string
  {
    "`sudo modprobe v4l2loopback devices=1 video_nr=" + IntToString(id)
      + " card_label='" + CardLabel(IntToString(id), name) + "'`"
  }

  /** The single-device command for an OAK device with the given mxid: no `video_nr`. */
  function DepthaiCommand(mxid: string, name: string): string
  {
    "`sudo modprobe v4l2loopback devices=1 card_label='" + CardLabel(mxid, name) + "'`"
  }

  /** The (label, command) assignments of the webcam loop, one per camera. */
  function WebcamAssignments(cameras: seq<Device>, ids: seq<int>): (r: seq<(string, string)>)
    requires |ids| == |cameras|
    ensures |r| == |cameras|
    ensures forall k :: 0 <= k < |cameras| ==> r[k] == (cameras[k].name, WebcamCommand(ids[k], cameras[k].name))
  {
    seq(|cameras|, k requires 0 <= k < |cameras| => (cameras[k].name, WebcamCommand(ids[k], cameras[k].name)))
  }

  /** The (label, command) assignments of the OAK loop, one per device. */
  function DepthaiAssignments(cameras: seq<Device>): (r: seq<(string, string)>)
    ensures |r| == |cameras|
    ensures forall k :: 0 <= k < |cameras| ==> r[k] == (cameras[k].name, DepthaiCommand(cameras[k].path, cameras[k].name))
  {
    seq(|cameras|, k requires 0 <= k < |cameras| => (cameras[k].name, DepthaiCommand(cameras[k].path, cameras[k].name)))
  }

  /** What `add_virtual_devices` prints: the single-device commands keyed by camera label,
      in the order the labels were first seen. An unknown family raises NotImplementedError
      and a webcam path that is not `/dev/video` plus a number raises ValueError; with no
      cameras nothing is printed. */
  function SetupCommands(cameras: seq<Device>, kind: string): (r: Result<Dicts.Dict>)
    ensures kind != Webcam && kind != Depthai ==> r == Err(NotImplementedError)
    ensures kind == Webcam ==>
      && (r.Err? <==> exists k :: 0 <= k < |cameras| && PathNumber(cameras[k].path).None?)
      && (r.Err? ==> r.error == ValueError)
      && (r.Ok? ==> r.value == Dicts.FromPairs(WebcamAssignments(cameras, PathNumbers(cameras).value)))
    ensures kind == Depthai ==> r == Ok(Dicts.FromPairs(DepthaiAssignments(cameras)))
    ensures r.Ok? && |cameras| == 0 ==> r.value.order == []
  {
    if kind == Webcam then
      match PathNumbers(cameras)
      case None => Err(ValueError)
      case Some(ids) => Ok(Dicts.FromPairs(WebcamAssignments(cameras, ids)))
    else if kind == Depthai then Ok(Dicts.FromPairs(DepthaiAssignments(cameras)))
    else Err(NotImplementedError)
  }

  /** `add_virtual_devices`: the assignment loop over the commands of the camera family. */
  method AddVirtualDevices(cameras: seq<Device>, kind: string) returns (r: Result<Dicts.Dict>)
    ensures r == SetupCommands(cameras, kind)
  {
    var pairs: seq<(string, string)>;
    if kind == Webcam {
      var ids := PathNumbers(cameras);
      if ids.None? {
        return Err(ValueError);
      }
      pairs := WebcamAssignments(cameras, ids.value);
    } else if kind == Depthai {
      pairs := DepthaiAssignments(cameras);
    } else {
      return Err(NotImplementedError);
    }
    var single := Assign(pairs);
    r := Ok(single);
  }

  /** The `single_device_command[label] = command` loop: the pairs assigned in order. */
  method Assign(pairs: seq<(string, string)>) returns (d: Dicts.Dict)
    ensures d == Dicts.FromPairs(pairs)
  {
    d := Dicts.Empty;
    var k := 0;
    while k < |pairs|
      invariant k <= |pairs|
      invariant d == Dicts.FromPairs(pairs[..k])
    {
      assert pairs[..k + 1][..k] == pairs[..k];
      d := Dicts.Put(d, pairs[k].0, pairs[k].1);
      k := k + 1;
    }
    assert pairs[..k] == pairs;
  }

  /** Every camera label gets exactly one command, and it is the command of the last camera
      carrying that label. */
  lemma CommandPerLabel(cameras: seq<Device>, ids: seq<int>)
    requires |ids| == |cameras|
    ensures var d := Dicts.FromPairs(WebcamAssignments(cameras, ids));
      && (forall name :: name in d.values ==> exists k :: 0 <= k < |cameras| && cameras[k].name == name)
      && (forall k :: 0 <= k < |cameras| ==> cameras[k].name in d.values)
      && (forall k :: 0 <= k < |cameras| && (forall j :: k < j < |cameras| ==> cameras[j].name != cameras[k].name) ==>
            d.values[cameras[k].name] == WebcamCommand(ids[k], cameras[k].name))
  {
    var pairs := WebcamAssignments(cameras, ids);
    Dicts.FromPairsLastWins(pairs);
    forall k | 0 <= k < |cameras| && (forall j :: k < j < |cameras| ==> cameras[j].name != cameras[k].name)
      ensures Dicts.LastWithKey(pairs, cameras[k].name, k)
    {
    }
    forall k | 0 <= k < |cameras|
      ensures cameras[k].name in Dicts.FromPairs(pairs).values
    {
      assert pairs[k].0 == cameras[k].name;
    }
  }
}
