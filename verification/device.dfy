/** device.py: enumerating real and virtual cameras, pairing each virtual camera with the
    real camera that feeds it, and choosing the camera to run on. The operating system's
    device enumeration and the OAK SDK's device list are inputs. */
module Device {
  import opened Common
  import opened Strings
  import opened Listing
  import Dicts
  import Printer
  import Capture
  import Frames

  /** The bus string of a v4l2loopback (virtual) device contains this. */
  const LoopbackBus: string := "platform:v4l2loopback"
  const OakLabelPrefix: string := "OAK Device on port "

  /** A V4L2 device node as enumerated: node path, card name, bus information, and whether
      it has the VIDEO_CAPTURE and the VIDEO_OUTPUT capability. */
  datatype V4l2Node = V4l2Node(path: string, name: string, bus: string, capture: bool, output: bool)

  /** An OAK device as the SDK lists it: its mxid and its port name. */
  datatype OakInfo = OakInfo(mxid: string, name: string)

  /** `_is_virtual_device`. */
  predicate IsVirtualDevice(node: V4l2Node)
  {
    Contains(node.bus, LoopbackBus)
  }

  /** Whether `get_available(real)` lists the node: a real camera is a non-loopback capture
      device, a virtual camera a loopback output device. */
  predicate Wanted(node: V4l2Node, isReal: bool)
  {
    if isReal then !IsVirtualDevice(node) && node.capture else IsVirtualDevice(node) && node.output
  }

  /** `_get_device_info`: the node's path and name; an AssertionError when the path does not
      contain "/dev/video" or does not exist. */
  function GetDeviceInfo(node: V4l2Node, existing: set<string>): (r: Result<Listing.Device>)
    ensures r.Ok? <==> Contains(node.path, DevicePrefix) && node.path in existing
    ensures r.Err? ==> r.error == AssertionError
    ensures r.Ok? ==> r.value.path == node.path && r.value.name == node.name
  {
    if !Contains(node.path, DevicePrefix) then Err(AssertionError)
    else if node.path !in existing then Err(AssertionError)
    else Ok(Listing.Device(node.path, node.name))
  }

  /** The nodes `get_available(real)` lists, in enumeration order. */
  function Selected(nodes: seq<V4l2Node>, isReal: bool): (r: seq<V4l2Node>)
    ensures |r| <= |nodes|
    ensures forall n :: n in r <==> n in nodes && Wanted(n, isReal)
  {
    if nodes == [] then []
    else
      var n := |nodes| - 1;
      assert nodes == nodes[..n] + [nodes[n]];
      Selected(nodes[..n], isReal) + (if Wanted(nodes[n], isReal) then [nodes[n]] else [])
  }

  /** Enumeration order is kept: the nodes of two enumerations joined are those of the
      first, then those of the second, and one node is kept iff it is wanted. */
  lemma {:induction false} SelectedConcat(a: seq<V4l2Node>, b: seq<V4l2Node>, isReal: bool)
    ensures Selected(a + b, isReal) == Selected(a, isReal) + Selected(b, isReal)
    ensures forall n :: Selected([n], isReal) == if Wanted(n, isReal) then [n] else []
    decreases |b|
  {
    if b == [] {
      assert a + b == a;
      assert Selected(b, isReal) == [];
      assert Selected(a, isReal) + [] == Selected(a, isReal);
    } else {
      var n := |b| - 1;
      var x, y, z := Selected(a, isReal), Selected(b[..n], isReal), Selected([b[n]], isReal);
      assert b == b[..n] + [b[n]];
      assert a + b == (a + b[..n]) + [b[n]];
      calc {
        Selected(a + b, isReal);
        { SelectedSnoc(a + b[..n], b[n], isReal); }
        Selected(a + b[..n], isReal) + z;
        { SelectedConcat(a, b[..n], isReal); }
        (x + y) + z;
        { assert (x + y) + z == x + (y + z); }
        x + (y + z);
        { SelectedSnoc(b[..n], b[n], isReal); }
        x + Selected(b, isReal);
      }
    }
    forall n
      ensures Selected([n], isReal) == if Wanted(n, isReal) then [n] else []
    {
      SelectedOne(n, isReal);
    }
  }

  lemma SelectedSnoc(s: seq<V4l2Node>, n: V4l2Node, isReal: bool)
    ensures Selected(s + [n], isReal) == Selected(s, isReal) + Selected([n], isReal)
  {
    assert (s + [n])[..|s|] == s;
    SelectedOne(n, isReal);
  }

  lemma SelectedOne(n: V4l2Node, isReal: bool)
    ensures Selected([n], isReal) == if Wanted(n, isReal) then [n] else []
  {
    assert [n][..0] == [];
  }

  /** The outcome of `get_available(real)`: the devices of the selected nodes, or the
      AssertionError of the first selected node whose path is rejected. */
  function Listed(nodes: seq<V4l2Node>, isReal: bool, existing: set<string>): (r: Result<seq<Listing.Device>>)
    ensures r.Ok? <==> forall k :: 0 <= k < |nodes| && Wanted(nodes[k], isReal) ==> GetDeviceInfo(nodes[k], existing).Ok?
    ensures r.Err? ==> r.error == AssertionError
    ensures r.Ok? ==> |r.value| == |Selected(nodes, isReal)|
    ensures r.Ok? ==> forall k :: 0 <= k < |r.value| ==>
      r.value[k] == Listing.Device(Selected(nodes, isReal)[k].path, Selected(nodes, isReal)[k].name)
  {
    if nodes == [] then Ok([])
    else
      var n := |nodes| - 1;
      var prev := Listed(nodes[..n], isReal, existing);
      assert forall k :: 0 <= k < n ==> nodes[..n][k] == nodes[k];
      if prev.Err? then Err(AssertionError)
      else if !Wanted(nodes[n], isReal) then prev
      else
        match GetDeviceInfo(nodes[n], existing)
        case Err(e) => Err(e)
        case Ok(d) => Ok(prev.value + [d])
  }

  /** `get_available`: one pass over the enumerated nodes, appending the wanted ones. */
  method GetAvailable(nodes: seq<V4l2Node>, isReal: bool, existing: set<string>) returns (r: Result<seq<Listing.Device>>)
    ensures r == Listed(nodes, isReal, existing)
  {
    var devices: seq<Listing.Device> := [];
    var i := 0;
    while i < |nodes|
      invariant i <= |nodes|
      invariant Listed(nodes[..i], isReal, existing) == Ok(devices)
    {
      ListedStep(nodes, isReal, existing, i);
      var node := nodes[i];
      if Wanted(node, isReal) {
        var info := GetDeviceInfo(node, existing);
        if info.Err? {
          return Err(AssertionError);
        }
        devices := devices + [info.value];
      }
      i := i + 1;
    }
    assert nodes[..i] == nodes;
    r := Ok(devices);
  }

  /** One more node: the listing of a prefix, extended by that node. */
  lemma ListedStep(nodes: seq<V4l2Node>, isReal: bool, existing: set<string>, i: nat)
    requires i < |nodes|
    ensures var prev := Listed(nodes[..i], isReal, existing);
      Listed(nodes[..i + 1], isReal, existing) ==
        if prev.Err? then Err(AssertionError)
        else if !Wanted(nodes[i], isReal) then prev
        else match GetDeviceInfo(nodes[i], existing)
          case Err(e) => Err(e)
          case Ok(d) => Ok(prev.value + [d])
  {
    assert nodes[..i + 1][..i] == nodes[..i];
  }

  /** A real camera is listed iff it is no loopback device and can capture; a virtual one
      iff it is a loopback device and can output. */
  lemma ListedIffWanted(nodes: seq<V4l2Node>, existing: set<string>, node: V4l2Node)
    requires node in nodes
    ensures node in Selected(nodes, true) <==> !IsVirtualDevice(node) && node.capture
    ensures node in Selected(nodes, false) <==> IsVirtualDevice(node) && node.output
    ensures !(node in Selected(nodes, true) && node in Selected(nodes, false))
  {
  }

  /** The OAK devices as cameras: the mxid as the path, the port as the label. */
  function OakDevices(oaks: seq<OakInfo>): (r: seq<Listing.Device>)
    ensures |r| == |oaks|
    ensures forall k :: 0 <= k < |oaks| ==> r[k].path == oaks[k].mxid && r[k].name == OakLabelPrefix + oaks[k].name
  {
    seq(|oaks|, k requires 0 <= k < |oaks| => Listing.Device(oaks[k].mxid, OakLabelPrefix + oaks[k].name))
  }

  /** `get_available_depthai`: one device per OAK device, labelled with its port. */
  method GetAvailableDepthai(oaks: seq<OakInfo>) returns (devices: seq<Listing.Device>)
    ensures devices == OakDevices(oaks)
  {
    devices := [];
    var k := 0;
    while k < |oaks|
      invariant k <= |oaks| && |devices| == k
      invariant forall i :: 0 <= i < k ==> devices[i] == Listing.Device(oaks[i].mxid, OakLabelPrefix + oaks[i].name)
    {
      devices := devices + [Listing.Device(oaks[k].mxid, OakLabelPrefix + oaks[k].name)];
      k := k + 1;
    }
    assert devices == OakDevices(oaks);
  }

  // ---------------------------------------------------------------------------------------
  // device_mapping

  /** `[int(re.findall(r"\d+", label)[0]) for label in labels_virtual]`: IndexError for the
      first label without a digit. */
  function VirtualIds(virtual: seq<Listing.Device>): (r: Result<seq<int>>)
    ensures r.Err? <==> exists k :: 0 <= k < |virtual| && NoDigits(virtual[k].name)
    ensures r.Err? ==> r.error == IndexError
    ensures r.Ok? ==> |r.value| == |virtual|
    ensures r.Ok? ==> forall k :: 0 <= k < |virtual| ==>
      FirstDigitRun(virtual[k].name).Some? && r.value[k] == DigitsValue(FirstDigitRun(virtual[k].name).value)
  {
    if virtual == [] then Ok([])
    else
      var rest := VirtualIds(virtual[1..]);
      assert forall k :: 1 <= k < |virtual| ==> virtual[k] == virtual[1..][k - 1];
      match FirstDigitRun(virtual[0].name)
      case None => Err(IndexError)
      case Some(d) => if rest.Err? then rest else Ok([DigitsValue(d) as int] + rest.value)
  }

  /** `ids.index(x)`: the first position of `x`, None for the ValueError of a missing one. */
  function FirstIndex(ids: seq<int>, x: int): (r: Option<nat>)
    ensures r.None? <==> x !in ids
    ensures r.Some? ==> r.value < |ids| && ids[r.value] == x && x !in ids[..r.value]
  {
    if ids == [] then None
    else if ids[0] == x then Some(0)
    else
      var rest := FirstIndex(ids[1..], x);
      if rest.None? then None
      else
        assert ids[..rest.value + 1] == [ids[0]] + ids[1..][..rest.value];
        Some(rest.value + 1)
  }

  /** `[ids_real.index(id) for id in mapping_ids]`; None when one id is missing, which the
      bare `except` turns into an empty mapping. */
  function WebcamIndices(mids: seq<int>, rids: seq<int>): (r: Option<seq<nat>>)
    ensures r.None? <==> exists k :: 0 <= k < |mids| && mids[k] !in rids
    ensures r.Some? ==> |r.value| == |mids|
    ensures r.Some? ==> forall k :: 0 <= k < |mids| ==> FirstIndex(rids, mids[k]) == Some(r.value[k])
  {
    if mids == [] then Some([])
    else
      var rest := WebcamIndices(mids[1..], rids);
      assert forall k :: 1 <= k < |mids| ==> mids[k] == mids[1..][k - 1];
      match FirstIndex(rids, mids[0])
      case None => None
      case Some(i) => if rest.None? then None else Some([i] + rest.value)
  }

  /** The positions `j` of the virtual labels containing `mxid`, ascending. */
  function Matches(mxid: string, virtual: seq<Listing.Device>): (r: seq<nat>)
    ensures forall j :: j in r <==> 0 <= j < |virtual| && Contains(virtual[j].name, mxid)
    ensures forall a, b :: 0 <= a < b < |r| ==> r[a] < r[b]
  {
    if virtual == [] then []
    else
      var n := |virtual| - 1;
      assert forall j :: 0 <= j < n ==> virtual[..n][j] == virtual[j];
      var before := Matches(mxid, virtual[..n]);
      assert forall a :: 0 <= a < |before| ==> before[a] < n by {
        forall a | 0 <= a < |before|
          ensures before[a] < n
        {
          assert before[a] in before;
        }
      }
      before + (if Contains(virtual[n].name, mxid) then [n] else [])
  }

  /** The depthai nested loops: for each real mxid in order, the virtual positions whose
      label contains it. Only the virtual position is kept. */
  function DepthaiIndices(reals: seq<Listing.Device>, virtual: seq<Listing.Device>): (r: seq<nat>)
    ensures forall j :: j in r ==> j < |virtual| && exists i :: 0 <= i < |reals| && Contains(virtual[j].name, reals[i].path)
    ensures forall i, j :: 0 <= i < |reals| && 0 <= j < |virtual| && Contains(virtual[j].name, reals[i].path) ==> j in r
  {
    if reals == [] then []
    else
      var n := |reals| - 1;
      assert forall i :: 0 <= i < n ==> reals[..n][i] == reals[i];
      DepthaiIndices(reals[..n], virtual) + Matches(reals[n].path, virtual)
  }

  /** One more real device appends its matches after those of the devices before it: the
      stored positions come in real-major order, each real device's in ascending order. */
  lemma {:induction false} DepthaiIndicesSnoc(reals: seq<Listing.Device>, d: Listing.Device, virtual: seq<Listing.Device>)
    ensures DepthaiIndices(reals + [d], virtual) == DepthaiIndices(reals, virtual) + Matches(d.path, virtual)
  {
    assert (reals + [d])[..|reals|] == reals;
  }

  /** `for i, j in enumerate(mapping_indices)`: entry `i` pairs the real device at position
      `j` with the virtual device at position `i`; an out-of-range position is an IndexError. */
  function Pairing(reals: seq<Listing.Device>, virtual: seq<Listing.Device>, indices: seq<nat>): (r: Result<seq<MappingEntry>>)
    ensures r.Ok? <==> forall k :: 0 <= k < |indices| ==> indices[k] < |reals| && k < |virtual|
    ensures r.Err? ==> r.error == IndexError
    ensures r.Ok? ==> |r.value| == |indices|
    ensures r.Ok? ==> forall k :: 0 <= k < |indices| ==> r.value[k] == Entry(reals[indices[k]], virtual[k])
  {
    if indices == [] then Ok([])
    else
      var n := |indices| - 1;
      var prev := Pairing(reals, virtual, indices[..n]);
      assert forall k :: 0 <= k < n ==> indices[..n][k] == indices[k];
      if prev.Err? then prev
      else if indices[n] >= |reals| || n >= |virtual| then Err(IndexError)
      else Ok(prev.value + [Entry(reals[indices[n]], virtual[n])])
  }

  /** The mapping entry for a real and a virtual device. */
  function Entry(reals: Listing.Device, virtual: Listing.Device): MappingEntry
  {
    MappingEntry(reals.path, reals.name, virtual.path, virtual.name)
  }

  /** The outcome of `device_mapping` for the given device family and listings. */
  function Mapping(kind: string, reals: seq<Listing.Device>, virtual: seq<Listing.Device>): (r: Result<seq<MappingEntry>>)
    ensures kind != Webcam && kind != Depthai ==> r == Err(NotImplementedError)
    ensures kind == Webcam ==> (r == Err(IndexError) <==> VirtualIds(virtual).Err?)
    ensures kind == Webcam && VirtualIds(virtual).Ok? ==> (r == Err(ValueError) <==> PathNumbers(reals).None?)
    // one lookup failure empties the whole webcam mapping
    ensures kind == Webcam && VirtualIds(virtual).Ok? && PathNumbers(reals).Some? ==>
      ((exists k :: 0 <= k < |virtual| && VirtualIds(virtual).value[k] !in PathNumbers(reals).value) <==> r == Ok([]) && |virtual| > 0)
    // with every id found the webcam mapping has one entry per virtual device
    ensures kind == Webcam && VirtualIds(virtual).Ok? && PathNumbers(reals).Some? ==> r.Ok?
    ensures kind == Webcam && VirtualIds(virtual).Ok? && PathNumbers(reals).Some? ==>
      (forall k :: 0 <= k < |virtual| ==> VirtualIds(virtual).value[k] in PathNumbers(reals).value) ==>
      r.Ok? && |r.value| == |virtual|
    // otherwise entry i pairs virtual device i with the first real device carrying its id
    ensures kind == Webcam && r.Ok? && r.value != [] ==>
      |r.value| == |virtual| && forall i :: 0 <= i < |virtual| ==>
        var j := FirstIndex(PathNumbers(reals).value, VirtualIds(virtual).value[i]);
        j.Some? && r.value[i] == Entry(reals[j.value], virtual[i])
    // a depthai entry k pairs virtual device k with the real device at the k-th matched *virtual* position
    ensures kind == Depthai ==> r == Pairing(reals, virtual, DepthaiIndices(reals, virtual))
  {
    if kind == Webcam then
      match VirtualIds(virtual)
      case Err(e) => Err(e)
      case Ok(mids) =>
        match PathNumbers(reals)
        case None => Err(ValueError)
        case Some(rids) =>
          match WebcamIndices(mids, rids)
          case None => Ok([])
          case Some(indices) =>
            assert |indices| == |virtual| && |rids| == |reals|;
            assert forall k :: 0 <= k < |indices| ==> indices[k] < |reals|;
            Pairing(reals, virtual, indices)
    else if kind == Depthai then Pairing(reals, virtual, DepthaiIndices(reals, virtual))
    else Err(NotImplementedError)
  }

  /** `device_mapping`: the webcam ids by comprehension, the depthai indices by two nested
      loops, then one entry per index. */
  method DeviceMapping(kind: string, reals: seq<Listing.Device>, virtual: seq<Listing.Device>) returns (r: Result<seq<MappingEntry>>)
    ensures r == Mapping(kind, reals, virtual)
  {
    var indices: seq<nat>;
    if kind == Webcam {
      var mids := VirtualIds(virtual);
      if mids.Err? {
        return Err(IndexError);
      }
      var rids := PathNumbers(reals);
      if rids.None? {
        return Err(ValueError);
      }
      var found := WebcamIndices(mids.value, rids.value);
      indices := if found.Some? then found.value else [];
    } else if kind == Depthai {
      indices := DepthaiIndexLoop(reals, virtual);
    } else {
      return Err(NotImplementedError);
    }
    r := PairLoop(reals, virtual, indices);
  }

  /** The depthai nested loops of `device_mapping`. */
  method DepthaiIndexLoop(reals: seq<Listing.Device>, virtual: seq<Listing.Device>) returns (indices: seq<nat>)
    ensures indices == DepthaiIndices(reals, virtual)
  {
    indices := [];
    var i := 0;
    while i < |reals|
      invariant i <= |reals|
      invariant indices == DepthaiIndices(reals[..i], virtual)
    {
      var j := 0;
      while j < |virtual|
        invariant j <= |virtual|
        invariant indices == DepthaiIndices(reals[..i], virtual) + Matches(reals[i].path, virtual[..j])
      {
        assert virtual[..j + 1][..j] == virtual[..j];
        if Contains(virtual[j].name, reals[i].path) {
          indices := indices + [j];
        }
        j := j + 1;
      }
      assert virtual[..j] == virtual;
      assert reals[..i + 1][..i] == reals[..i];
      i := i + 1;
    }
    assert reals[..i] == reals;
  }

  /** The final loop of `device_mapping`: one entry per index. */
  method PairLoop(reals: seq<Listing.Device>, virtual: seq<Listing.Device>, indices: seq<nat>) returns (r: Result<seq<MappingEntry>>)
    ensures r == Pairing(reals, virtual, indices)
  {
    var entries: seq<MappingEntry> := [];
    var k := 0;
    while k < |indices|
      invariant k <= |indices|
      invariant Pairing(reals, virtual, indices[..k]) == Ok(entries)
    {
      assert indices[..k + 1][..k] == indices[..k];
      var j := indices[k];
      if j >= |reals| || k >= |virtual| {
        return Err(IndexError);
      }
      entries := entries + [Entry(reals[j], virtual[k])];
      k := k + 1;
    }
    assert indices[..k] == indices;
    r := Ok(entries);
  }

  // ---------------------------------------------------------------------------------------
  // Round trips with the printed setup commands

  /** The card label the printer gives the virtual counterpart of a webcam with number `n`
      carries `n` as its first number. */
  lemma CardLabelId(n: nat, name: string)
    ensures FirstDigitRun(CardLabel(IntToString(n), name)) == Some(NatToString(n))
    ensures DigitsValue(NatToString(n)) == n
  {
    var p := CardPrefix;
    assert NoDigits(p) by {
      assert p == ['M', 'e', 'e', 't', 'i', 'n', 'g', 'C', 'a', 'm'];
    }
    assert CardLabel(IntToString(n), name) == p + NatToString(n) + (" " + name);
    FirstDigitRunOfInfix(p, NatToString(n), " " + name);
    DigitsValueOfNatToString(n);
  }

  /** The real cameras are the nodes `/dev/video<ns[k]>`. */
  predicate NodePaths(reals: seq<Listing.Device>, ns: seq<nat>)
  {
    |ns| == |reals| && forall k :: 0 <= k < |reals| ==> reals[k].path == DevicePrefix + NatToString(ns[k])
  }

  /** Virtual camera `i` carries the card label the printer gives real camera `src[i]`. */
  predicate PrintedLabels(reals: seq<Listing.Device>, ns: seq<nat>, virtual: seq<Listing.Device>, src: seq<nat>)
  {
    |src| == |virtual| &&
    forall i :: 0 <= i < |virtual| ==>
      src[i] < |reals| && src[i] < |ns| && virtual[i].name == CardLabel(IntToString(ns[src[i]]), reals[src[i]].name)
  }

  /** The path numbers of `/dev/videoN` nodes are the N's. */
  lemma NodeNumbers(reals: seq<Listing.Device>, ns: seq<nat>)
    requires NodePaths(reals, ns)
    ensures PathNumbers(reals) == Some(ns)
  {
    forall k | 0 <= k < |reals|
      ensures PathNumber(reals[k].path) == Some(ns[k] as int)
    {
      PathNumberOfNode(ns[k]);
    }
    var r := PathNumbers(reals).value;
    assert forall k :: 0 <= k < |ns| ==> r[k] == ns[k];
    assert r == ns;
  }

  /** The id read back from each printed label is the number of its source camera. */
  lemma LabelIds(reals: seq<Listing.Device>, ns: seq<nat>, virtual: seq<Listing.Device>, src: seq<nat>)
    requires PrintedLabels(reals, ns, virtual, src)
    ensures VirtualIds(virtual).Ok?
    ensures forall i :: 0 <= i < |virtual| ==> VirtualIds(virtual).value[i] == ns[src[i]]
  {
    forall i | 0 <= i < |virtual|
      ensures FirstDigitRun(virtual[i].name) == Some(NatToString(ns[src[i]]))
      ensures DigitsValue(NatToString(ns[src[i]])) == ns[src[i]]
    {
      CardLabelId(ns[src[i]], reals[src[i]].name);
    }
    forall i | 0 <= i < |virtual|
      ensures !NoDigits(virtual[i].name)
    {
      assert FirstDigitRun(virtual[i].name).Some?;
    }
    var r := VirtualIds(virtual);
    assert r.Ok?;
    forall i | 0 <= i < |virtual|
      ensures r.value[i] == ns[src[i]]
    {
      assert r.value[i] == DigitsValue(FirstDigitRun(virtual[i].name).value);
    }
  }

  /** With distinct numbers, looking each id up finds exactly the camera it came from. */
  lemma {:induction false} DistinctLookup(ns: seq<nat>, mids: seq<int>, src: seq<nat>)
    requires forall a, b :: 0 <= a < b < |ns| ==> ns[a] != ns[b]
    requires |mids| == |src| && forall i :: 0 <= i < |src| ==> src[i] < |ns| && mids[i] == ns[src[i]]
    ensures WebcamIndices(mids, ns) == Some(src)
    decreases |src|
  {
    if |src| > 0 {
      DistinctLookup(ns, mids[1..], src[1..]);
      FirstIndexOfDistinct(ns, src[0]);
      assert src == [src[0]] + src[1..];
    }
  }

  /** In a list without repeats, `index` finds the position the value came from. */
  lemma FirstIndexOfDistinct(ids: seq<int>, p: nat)
    requires forall a, b :: 0 <= a < b < |ids| ==> ids[a] != ids[b]
    requires p < |ids|
    ensures FirstIndex(ids, ids[p]) == Some(p)
  {
    var f := FirstIndex(ids, ids[p]);
    assert ids[..f.value + 1][f.value] == ids[p];
  }

  /** Webcam round trip: when every virtual camera was created with the printed command for
      some real camera `/dev/videoN` (distinct N), the mapping pairs each virtual camera with
      exactly that real camera. */
  lemma WebcamRoundTrip(reals: seq<Listing.Device>, ns: seq<nat>, virtual: seq<Listing.Device>, src: seq<nat>)
    requires NodePaths(reals, ns)
    requires forall a, b :: 0 <= a < b < |ns| ==> ns[a] != ns[b]
    requires PrintedLabels(reals, ns, virtual, src)
    ensures Mapping(Webcam, reals, virtual).Ok?
    ensures |Mapping(Webcam, reals, virtual).value| == |virtual|
    ensures forall i :: 0 <= i < |virtual| ==>
      Mapping(Webcam, reals, virtual).value[i] == Entry(reals[src[i]], virtual[i])
  {
    NodeNumbers(reals, ns);
    LabelIds(reals, ns, virtual, src);
    DistinctLookup(ns, VirtualIds(virtual).value, src);
    assert Mapping(Webcam, reals, virtual) == Pairing(reals, virtual, src);
  }

  /** The mapping `device_mapping` evidently intends for depthai: one entry per (real,
      virtual) pair whose virtual label contains the real mxid, pairing those two devices. */
  function CorrectedDepthaiMapping(reals: seq<Listing.Device>, virtual: seq<Listing.Device>): (r: seq<MappingEntry>)
    ensures forall e :: e in r ==> Contains(e.labelVirtual, e.pathReal)
    ensures forall e :: e in r ==> exists i, j :: 0 <= i < |reals| && 0 <= j < |virtual| && e == Entry(reals[i], virtual[j])
    ensures forall i, j :: 0 <= i < |reals| && 0 <= j < |virtual| && Contains(virtual[j].name, reals[i].path) ==>
      Entry(reals[i], virtual[j]) in r
  {
    if reals == [] then []
    else
      var n := |reals| - 1;
      assert forall i :: 0 <= i < n ==> reals[..n][i] == reals[i];
      CorrectedDepthaiMapping(reals[..n], virtual) + PairsFor(reals[n], virtual)
  }

  /** The entries of one real device: each virtual device whose label contains its mxid. */
  function PairsFor(dev: Listing.Device, virtual: seq<Listing.Device>): (r: seq<MappingEntry>)
    ensures forall e :: e in r ==> Contains(e.labelVirtual, e.pathReal)
    ensures forall e :: e in r ==> exists j :: 0 <= j < |virtual| && e == Entry(dev, virtual[j])
    ensures forall j :: 0 <= j < |virtual| && Contains(virtual[j].name, dev.path) ==> Entry(dev, virtual[j]) in r
  {
    if virtual == [] then []
    else
      var n := |virtual| - 1;
      assert forall j :: 0 <= j < n ==> virtual[..n][j] == virtual[j];
      PairsFor(dev, virtual[..n]) + (if Contains(virtual[n].name, dev.path) then [Entry(dev, virtual[n])] else [])
  }

  /** Depthai round trip: a virtual camera created with the printed command for an OAK device
      is paired with that device by the corrected mapping. */
  lemma DepthaiRoundTrip(reals: seq<Listing.Device>, virtual: seq<Listing.Device>, i: nat, j: nat)
    requires i < |reals| && j < |virtual|
    requires virtual[j].name == CardLabel(reals[i].path, reals[i].name)
    ensures Entry(reals[i], virtual[j]) in CorrectedDepthaiMapping(reals, virtual)
  {
    assert virtual[j].name == CardPrefix + reals[i].path + (" " + reals[i].name);
    ContainsInfix(CardPrefix, reals[i].path, " " + reals[i].name);
  }

  /** Two OAK devices with mxids "7" and "8". */
  const OakPair: seq<Listing.Device> := [Listing.Device("7", OakLabelPrefix + "1"), Listing.Device("8", OakLabelPrefix + "2")]

  /** A virtual camera whose label names only the second of them. */
  const FedBySecond: Listing.Device := Listing.Device("/dev/video4", "8")

  /** As written, a virtual camera matched by the second OAK device is paired with the first
      one, whose mxid its label does not contain. */
  lemma DepthaiMappingMispairs()
    ensures Mapping(Depthai, OakPair, [FedBySecond]) == Ok([Entry(OakPair[0], FedBySecond)])
    ensures !Contains(FedBySecond.name, OakPair[0].path)
    ensures CorrectedDepthaiMapping(OakPair, [FedBySecond]) == [Entry(OakPair[1], FedBySecond)]
  {
    OakPairWritten();
    EightLacksSeven();
    OakPairCorrected();
  }

  /** As written, the stored position 0 indexes the real list and picks the first device. */
  lemma OakPairWritten()
    ensures Mapping(Depthai, OakPair, [FedBySecond]) == Ok([Entry(OakPair[0], FedBySecond)])
  {
    var reals := OakPair;
    var virtual := [FedBySecond];
    assert Mapping(Depthai, reals, virtual) == Pairing(reals, virtual, [0]) by {
      OakPairIndices();
      assert Depthai != Webcam by {
        assert Depthai[0] != Webcam[0];
      }
    }
    assert Pairing(reals, virtual, [0]) == Ok([Entry(reals[0], virtual[0])]) by {
      assert [0][..0] == [];
      assert Pairing(reals, virtual, [0][..0]) == Ok([]);
      assert [] + [Entry(reals[0], virtual[0])] == [Entry(reals[0], virtual[0])];
    }
  }

  /** The label "8" does not hold the mxid "7". */
  lemma EightLacksSeven()
    ensures !Contains("8", "7")
  {
    assert "8"[..1] != "7" by {
      assert "8"[..1][0] == '8';
    }
    assert !Contains("8"[1..], "7");
  }

  /** As written, the virtual camera is found once, at the second OAK device. */
  lemma OakPairIndices()
    ensures DepthaiIndices(OakPair, [FedBySecond]) == [0]
  {
    var reals := OakPair;
    var virtual := [FedBySecond];
    var first := reals[..1];
    assert first == [reals[0]] && first[..0] == [] && virtual[..0] == [];
    EightLacksSeven();
    assert Contains("8", "8");
    assert Matches("7", virtual) == Matches("7", virtual[..0]) + [];
    assert Matches("8", virtual) == Matches("8", virtual[..0]) + [0];
    assert DepthaiIndices(first, virtual) == DepthaiIndices(first[..0], virtual) + Matches("7", virtual);
    assert DepthaiIndices(reals, virtual) == DepthaiIndices(first, virtual) + Matches("8", virtual);
  }

  /** Corrected, the virtual camera is paired with the second OAK device. */
  lemma OakPairCorrected()
    ensures CorrectedDepthaiMapping(OakPair, [FedBySecond]) == [Entry(OakPair[1], FedBySecond)]
  {
    var reals := OakPair;
    var virtual := [FedBySecond];
    var first := reals[..1];
    assert first == [reals[0]] && first[..0] == [] && virtual[..0] == [];
    EightLacksSeven();
    assert Contains("8", "8");
    assert PairsFor(reals[0], virtual) == PairsFor(reals[0], virtual[..0]) + [];
    assert PairsFor(reals[1], virtual) == PairsFor(reals[1], virtual[..0]) + [Entry(reals[1], virtual[0])];
    assert CorrectedDepthaiMapping(first, virtual) == CorrectedDepthaiMapping(first[..0], virtual) + PairsFor(reals[0], virtual);
    assert CorrectedDepthaiMapping(reals, virtual) == CorrectedDepthaiMapping(first, virtual) + PairsFor(reals[1], virtual);
  }

  // ---------------------------------------------------------------------------------------
  // The handler

  /** What `init_device` prints before it exits. */
  datatype Console =
    | NotAvailable(path: Option<string>)          // `device_not_available`
    | DeviceTable(rows: seq<Printer.Row>)         // `available_devices`
    | AddDevices(commands: Dicts.Dict)            // `add_virtual_devices`
    | MainCommand                                 // `run_main_command`

  /** How `init_device` ends: it returns a virtual path, exits after printing, or raises
      from `add_virtual_devices` after printing. */
  datatype Init =
    | UseVirtual(path: string)
    | Exit(console: seq<Console>)
    | Raised(error: Error, console: seq<Console>)

  /** The `{path_real: path_virtual}` pairs of the mapping, in entry order. */
  function PathPairs(mapping: seq<MappingEntry>): (r: seq<(string, string)>)
    ensures |r| == |mapping|
    ensures forall e :: 0 <= e < |mapping| ==> r[e] == (mapping[e].pathReal, mapping[e].pathVirtual)
  {
    seq(|mapping|, e requires 0 <= e < |mapping| => (mapping[e].pathReal, mapping[e].pathVirtual))
  }

  /** Entry `e` is the last mapping entry for the real path. */
  predicate LastMapped(mapping: seq<MappingEntry>, path: string, e: int)
  {
    0 <= e < |mapping| && mapping[e].pathReal == path &&
    forall e' :: e < e' < |mapping| ==> mapping[e'].pathReal != path
  }

  /** The real and virtual listings and the mapping a handler of the family is built with,
      or the first error of the listings and the mapping. */
  function Building(kind: string, oaks: seq<OakInfo>, nodes: seq<V4l2Node>, existing: set<string>)
    : (r: Result<(seq<Listing.Device>, seq<Listing.Device>, seq<MappingEntry>)>)
    requires kind == Webcam || kind == Depthai
    // the real cameras: non-loopback capture devices for a webcam, the OAK devices otherwise
    ensures kind == Webcam ==> (Listed(nodes, true, existing).Err? ==> r == Err(Listed(nodes, true, existing).error))
    ensures r.Ok? ==> r.value.0 == if kind == Webcam then Listed(nodes, true, existing).value else OakDevices(oaks)
    ensures (kind == Depthai || Listed(nodes, true, existing).Ok?) && Listed(nodes, false, existing).Err? ==>
      r == Err(Listed(nodes, false, existing).error)
    ensures r.Ok? ==> Listed(nodes, false, existing) == Ok(r.value.1)
    ensures r.Ok? ==> Mapping(kind, r.value.0, r.value.1) == Ok(r.value.2)
    ensures r.Ok? <==>
      && (kind == Webcam ==> Listed(nodes, true, existing).Ok?)
      && Listed(nodes, false, existing).Ok?
      && Mapping(kind, if kind == Webcam then Listed(nodes, true, existing).value else OakDevices(oaks),
                 Listed(nodes, false, existing).value).Ok?
  {
    var reals := if kind == Webcam then Listed(nodes, true, existing) else Ok(OakDevices(oaks));
    if reals.Err? then Err(reals.error)
    else
      match Listed(nodes, false, existing)
      case Err(e) => Err(e)
      case Ok(virtual) =>
        match Mapping(kind, reals.value, virtual)
        case Err(e) => Err(e)
        case Ok(mapping) => Ok((reals.value, virtual, mapping))
  }

  /** Some mapping entry has the real path `path`, a non-empty one. */
  predicate HasVirtual(mapping: seq<MappingEntry>, path: Option<string>)
  {
    Truthy(path) && exists e :: 0 <= e < |mapping| && mapping[e].pathReal == path.value
  }

  /** How `init_device` ends for a handler of family `kind` with these listings and this
      mapping: through the `{path_real: path_virtual}` dictionary, a given path with a
      virtual counterpart yields that virtual path; otherwise the notices are printed and
      the program exits, or raises from `add_virtual_devices` after printing. */
  function InitResult(kind: string, mapping: seq<MappingEntry>, availableReal: seq<Listing.Device>, devicePath: Option<string>): Init
  {
    var deviceMap := Dicts.FromPairs(PathPairs(mapping));
    var table := DeviceTable(Printer.Table(mapping, availableReal));
    if Truthy(devicePath) then
      if devicePath.value in deviceMap.values then UseVirtual(deviceMap.values[devicePath.value])
      else Exit([NotAvailable(devicePath), table, MainCommand])
    else if |deviceMap.order| > 0 then Exit([table, MainCommand])
    else
      match Printer.SetupCommands(availableReal, kind)
      case Err(e) => Raised(e, [NotAvailable(devicePath), table])
      case Ok(commands) => Exit([NotAvailable(devicePath), table, AddDevices(commands), MainCommand])
  }

  /** The branches of `init_device` stated on the mapping itself: the virtual path is that
      of the last entry for the given real path, and the program exits or raises otherwise. */
  lemma InitResultCases(kind: string, mapping: seq<MappingEntry>, availableReal: seq<Listing.Device>, devicePath: Option<string>)
    ensures var r := InitResult(kind, mapping, availableReal, devicePath);
      && (r.UseVirtual? <==> HasVirtual(mapping, devicePath))
      && (r.UseVirtual? ==> exists e :: LastMapped(mapping, devicePath.value, e) && r.path == mapping[e].pathVirtual)
      && (Truthy(devicePath) && !r.UseVirtual? ==>
            r == Exit([NotAvailable(devicePath), DeviceTable(Printer.Table(mapping, availableReal)), MainCommand]))
      && (!Truthy(devicePath) && |mapping| > 0 ==> r == Exit([DeviceTable(Printer.Table(mapping, availableReal)), MainCommand]))
      && (!Truthy(devicePath) && |mapping| == 0 ==> (r.Raised? <==> Printer.SetupCommands(availableReal, kind).Err?))
      && (r.Exit? && !Truthy(devicePath) && |mapping| == 0 ==>
            r.console == [NotAvailable(devicePath), DeviceTable(Printer.Table(mapping, availableReal)),
                          AddDevices(Printer.SetupCommands(availableReal, kind).value), MainCommand])
      && (r.Raised? ==> !Truthy(devicePath) && |mapping| == 0 && r.error in {NotImplementedError, ValueError})
      && (r.Raised? ==>
            r == Raised(Printer.SetupCommands(availableReal, kind).error, [NotAvailable(devicePath), DeviceTable(Printer.Table(mapping, availableReal))]))
  {
    var pairs := PathPairs(mapping);
    var deviceMap := Dicts.FromPairs(pairs);
    if Truthy(devicePath) {
      var path := devicePath.value;
      if path in deviceMap.values {
        var e := Dicts.KeySource(pairs, path);
        var last := LastIndexFor(pairs, path, e);
        assert LastMapped(mapping, path, last);
        Dicts.FromPairsValue(pairs, path, last);
      } else {
        forall e | 0 <= e < |mapping|
          ensures mapping[e].pathReal != path
        {
          Dicts.AssignedKey(pairs, e);
        }
      }
    } else {
      if |mapping| > 0 {
        Dicts.AssignedKey(pairs, 0);
      }
      if |deviceMap.order| > 0 {
        var e := Dicts.KeySource(pairs, deviceMap.order[0]);
      }
    }
  }

  /** A handler that was built has real paths the setup commands can parse: a webcam
      mapping parses every real path, and the depthai commands parse none. So `init_device`
      of a built handler never raises; it returns a virtual path or exits. */
  lemma BuiltInitNeverRaises(kind: string, oaks: seq<OakInfo>, nodes: seq<V4l2Node>, existing: set<string>, devicePath: Option<string>)
    requires kind == Webcam || kind == Depthai
    requires Building(kind, oaks, nodes, existing).Ok?
    ensures var b := Building(kind, oaks, nodes, existing).value;
      Printer.SetupCommands(b.0, kind).Ok? && !InitResult(kind, b.2, b.0, devicePath).Raised?
  {
    var b := Building(kind, oaks, nodes, existing).value;
    assert Printer.SetupCommands(b.0, kind).Ok? by {
      if kind == Webcam {
        assert Mapping(kind, b.0, b.1) == Ok(b.2);
        assert PathNumbers(b.0).Some?;
      }
    }
    InitResultCases(kind, b.2, b.0, devicePath);
  }

  /** `DeviceHandler` with its `WebcamDevice` and `DepthaiDevice` state. */
  class DeviceHandler {
    const kind: string
    var availableReal: seq<Listing.Device>
    var availableVirtual: seq<Listing.Device>
    var mapping: seq<MappingEntry>
    var realPath: Option<string>
    var deviceInfo: Option<string>

    constructor(kind: string, reals: seq<Listing.Device>, virtual: seq<Listing.Device>, mapping: seq<MappingEntry>)
      ensures this.kind == kind && availableReal == reals && availableVirtual == virtual
      ensures this.mapping == mapping && realPath == None && deviceInfo == None
    {
      this.kind := kind;
      availableReal := reals;
      availableVirtual := virtual;
      this.mapping := mapping;
      realPath := None;
      deviceInfo := None;
    }

    /** `WebcamDevice()`: list real and virtual cameras, then build the mapping; an error of
        either step propagates. */
    static method WebcamDevice(nodes: seq<V4l2Node>, existing: set<string>) returns (r: Result<DeviceHandler>)
      ensures r.Ok? <==> (Listed(nodes, true, existing).Ok? && Listed(nodes, false, existing).Ok? &&
                          Mapping(Webcam, Listed(nodes, true, existing).value, Listed(nodes, false, existing).value).Ok?)
      ensures r.Ok? ==> fresh(r.value) && r.value.kind == Webcam && r.value.realPath == None
      ensures r.Ok? ==> r.value.availableReal == Listed(nodes, true, existing).value
      ensures r.Ok? ==> r.value.availableVirtual == Listed(nodes, false, existing).value
      ensures r.Ok? ==> r.value.mapping == Mapping(Webcam, r.value.availableReal, r.value.availableVirtual).value
      ensures r.Ok? ==> Building(Webcam, [], nodes, existing) == Ok((r.value.availableReal, r.value.availableVirtual, r.value.mapping))
      ensures r.Err? ==> Building(Webcam, [], nodes, existing) == Err(r.error)
    {
      var reals := GetAvailable(nodes, true, existing);
      if reals.Err? {
        return Err(reals.error);
      }
      var virtual := GetAvailable(nodes, false, existing);
      if virtual.Err? {
        return Err(virtual.error);
      }
      var mapping := DeviceMapping(Webcam, reals.value, virtual.value);
      if mapping.Err? {
        return Err(mapping.error);
      }
      var h := new DeviceHandler(Webcam, reals.value, virtual.value, mapping.value);
      r := Ok(h);
    }

    /** `DepthaiDevice(pipeline)`: OAK devices as the real cameras, loopback devices as the
        virtual ones, then the mapping. */
    static method DepthaiDevice(oaks: seq<OakInfo>, nodes: seq<V4l2Node>, existing: set<string>) returns (r: Result<DeviceHandler>)
      ensures r.Ok? <==> (Listed(nodes, false, existing).Ok? &&
                          Mapping(Depthai, OakDevices(oaks), Listed(nodes, false, existing).value).Ok?)
      ensures r.Ok? ==> fresh(r.value) && r.value.kind == Depthai && r.value.realPath == None
      ensures r.Ok? ==> r.value.availableReal == OakDevices(oaks)
      ensures Listed(nodes, false, existing).Err? ==> r == Err(AssertionError)
      ensures Listed(nodes, false, existing).Ok? && r.Err? ==> r.error == IndexError
      ensures r.Ok? ==> r.value.availableVirtual == Listed(nodes, false, existing).value
      ensures r.Ok? ==> r.value.mapping == Mapping(Depthai, r.value.availableReal, r.value.availableVirtual).value
      ensures r.Ok? ==> Building(Depthai, oaks, nodes, existing) == Ok((r.value.availableReal, r.value.availableVirtual, r.value.mapping))
      ensures r.Err? ==> Building(Depthai, oaks, nodes, existing) == Err(r.error)
    {
      var reals := GetAvailableDepthai(oaks);
      var virtual := GetAvailable(nodes, false, existing);
      if virtual.Err? {
        return Err(virtual.error);
      }
      var mapping := DeviceMapping(Depthai, reals, virtual.value);
      if mapping.Err? {
        return Err(mapping.error);
      }
      var h := new DeviceHandler(Depthai, reals, virtual.value, mapping.value);
      r := Ok(h);
    }

    /** The handler of family `kind`, as `main` and `Runner` choose it: an OAK handler for a
        depthai plugin, a webcam handler otherwise. */
    static method Build(kind: string, oaks: seq<OakInfo>, nodes: seq<V4l2Node>, existing: set<string>) returns (r: Result<DeviceHandler>)
      requires kind == Webcam || kind == Depthai
      ensures r.Ok? <==> Building(kind, oaks, nodes, existing).Ok?
      ensures r.Err? ==> Building(kind, oaks, nodes, existing) == Err(r.error)
      ensures r.Ok? ==> fresh(r.value) && r.value.kind == kind && r.value.realPath == None
      ensures r.Ok? ==> Building(kind, oaks, nodes, existing).value == (r.value.availableReal, r.value.availableVirtual, r.value.mapping)
    {
      if kind == Depthai {
        r := DepthaiDevice(oaks, nodes, existing);
      } else {
        r := WebcamDevice(nodes, existing);
        assert Building(Webcam, oaks, nodes, existing) == Building(Webcam, [], nodes, existing);
      }
    }

    /** The handler of family `kind` built, then initialised on `devicePath`, as `main` and
        `Runner` do: the build's error, or the handler with the outcome of its `init_device`,
        which never raises for a built handler. */
    static method Open(kind: string, oaks: seq<OakInfo>, nodes: seq<V4l2Node>, existing: set<string>, devicePath: Option<string>)
      returns (made: Result<DeviceHandler>, init: Init)
      requires kind == Webcam || kind == Depthai
      ensures made.Ok? <==> Building(kind, oaks, nodes, existing).Ok?
      ensures made.Err? ==> Building(kind, oaks, nodes, existing) == Err(made.error)
      ensures made.Ok? ==> fresh(made.value) && made.value.kind == kind
      ensures made.Ok? ==> made.value.mapping == Building(kind, oaks, nodes, existing).value.2
      ensures made.Ok? ==> init == InitResult(kind, made.value.mapping, Building(kind, oaks, nodes, existing).value.0, devicePath)
      ensures made.Ok? ==> !init.Raised? && (init.UseVirtual? <==> HasVirtual(made.value.mapping, devicePath))
      ensures made.Ok? && init.UseVirtual? ==> made.value.realPath == devicePath
      ensures made.Ok? && init.UseVirtual? ==>
        exists e :: LastMapped(made.value.mapping, devicePath.value, e) && init.path == made.value.mapping[e].pathVirtual
    {
      made := Build(kind, oaks, nodes, existing);
      if made.Err? {
        return made, Exit([]);  // not initialised
      }
      var handler := made.value;
      init := handler.InitDevice(devicePath);
      assert (init.UseVirtual? <==> HasVirtual(handler.mapping, devicePath)) &&
        (init.UseVirtual? ==> exists e :: LastMapped(handler.mapping, devicePath.value, e) && init.path == handler.mapping[e].pathVirtual) by {
        InitResultCases(handler.kind, handler.mapping, handler.availableReal, devicePath);
      }
      assert !init.Raised? by {
        BuiltInitNeverRaises(kind, oaks, nodes, existing, devicePath);
      }
    }

    /** `init_device(device_path)`. */
    method InitDevice(devicePath: Option<string>) returns (r: Init)
      modifies this`realPath
      // the outcome, whose cases InitResultCases states
      ensures r == InitResult(kind, mapping, availableReal, devicePath)
      // the real path becomes the given one when it has a virtual counterpart, and the first
      // mapped one when no path is given; otherwise it is left alone
      ensures realPath ==
        if r.UseVirtual? then devicePath
        else if !Truthy(devicePath) && |mapping| > 0 then Some(mapping[0].pathReal)
        else old(realPath)
    {
      var pairs := PathPairs(mapping);
      var deviceMap := Dicts.FromPairs(pairs);
      if Truthy(devicePath) {
        var path := devicePath.value;
        if path in deviceMap.values {
          realPath := devicePath;
          return UseVirtual(deviceMap.values[path]);
        }
        var rows := Printer.AvailableDevices(mapping, availableReal);
        return Exit([NotAvailable(devicePath), DeviceTable(rows), MainCommand]);
      }
      assert |deviceMap.order| > 0 <==> |mapping| > 0 by {
        if |mapping| > 0 {
          Dicts.AssignedKey(pairs, 0);
        }
        if |deviceMap.order| > 0 {
          var e := Dicts.KeySource(pairs, deviceMap.order[0]);
        }
      }
      if |deviceMap.order| > 0 {
        Dicts.FromPairsFirstKey(pairs);
        realPath := Some(deviceMap.order[0]);
        var rows := Printer.AvailableDevices(mapping, availableReal);
        return Exit([DeviceTable(rows), MainCommand]);
      }
      var rows := Printer.AvailableDevices(mapping, availableReal);
      var add := Printer.AddVirtualDevices(availableReal, kind);
      if add.Err? {
        return Raised(add.error, [NotAvailable(devicePath), DeviceTable(rows)]);
      }
      r := Exit([NotAvailable(devicePath), DeviceTable(rows), AddDevices(add.value), MainCommand]);
    }

    /** `WebcamDevice.get_device`: a capture of the chosen real camera; LookupError while no
        real path is set (None or empty). */
    method GetWebcamCapture(camWidth: nat, camHeight: nat) returns (r: Result<Capture.VideoCapture>)
      requires kind == Webcam
      ensures r.Err? <==> !Truthy(realPath)
      ensures r.Err? ==> r.error == LookupError
      ensures r.Ok? ==> fresh(r.value) && r.value.path == realPath.value && !r.value.released
      ensures r.Ok? ==> r.value.width == Frames.Min(camWidth, MaxWidth) && r.value.height == Frames.Min(camHeight, MaxHeight)
    {
      if !Truthy(realPath) {
        return Err(LookupError);
      }
      var cam := new Capture.VideoCapture(realPath.value, camWidth, camHeight);
      r := Ok(cam);
    }

    /** `DepthaiDevice.get_device`: records the device info of the chosen mxid and opens it;
        LookupError while no real path is set. */
    method GetDepthaiCapture() returns (r: Result<Capture.DepthaiCapture>)
      requires kind == Depthai
      modifies this`deviceInfo
      ensures r.Err? <==> !Truthy(realPath)
      ensures r.Err? ==> r.error == LookupError && deviceInfo == old(deviceInfo)
      ensures r.Ok? ==> fresh(r.value) && deviceInfo == realPath && r.value.mxid == realPath.value
      ensures r.Ok? ==> r.value.acquisition.None? && r.value.width == MaxWidth && r.value.height == MaxHeight
    {
      if !Truthy(realPath) {
        return Err(LookupError);
      }
      deviceInfo := realPath;
      var cam := new Capture.DepthaiCapture(realPath.value);
      r := Ok(cam);
    }
  }

  /** The position of the last pair with key `k`, given any position with that key. */
  lemma LastIndexFor(pairs: seq<(string, string)>, k: string, e: nat) returns (last: nat)
    requires e < |pairs| && pairs[e].0 == k
    ensures Dicts.LastWithKey(pairs, k, last)
    decreases |pairs| - e
  {
    if exists e' :: e < e' < |pairs| && pairs[e'].0 == k {
      var e' :| e < e' < |pairs| && pairs[e'].0 == k;
      last := LastIndexFor(pairs, k, e');
    } else {
      last := e;
    }
  }
}
