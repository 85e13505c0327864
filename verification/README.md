# MeetingCam core in Dafny

MeetingCam feeds a real camera through a plugin into a virtual v4l2loopback camera, so a
processed stream can be used in video meetings. This project models the logic between the
operating system and the pixel libraries, and proves properties of that model:

- **Device discovery and selection** (`device.py`):
  - which enumerated V4L2 nodes count as real or as virtual cameras;
  - how each virtual camera is paired with the real camera feeding it (by the first number
    of its label for webcams, by the OAK mxid contained in its label for depthai devices);
  - the four-way decision of `init_device` (return a virtual path, or print and exit);
  - the guard of `get_device`.
- **Capture, frame size, hotkeys and extra arguments** (`utils.py`):
  - the 1280×720 frame-size ceiling and the sizes the two captures report;
  - the failed-grab error;
  - the five hotkey switches;
  - the `--name value` argument checks and lookup.
- **Face plugins** (both revisions of `plugin.py` and their identical `utils.py`):
  - non-maximum suppression over integer boxes;
  - `box_area` and the choice of the largest face;
  - which annotations the trigger tuple and the name allow.
- **Plugin registry** (`plugin_utils.py`):
  - `_sortout`, which removes hidden directory names from the list it is iterating;
  - `register_plugins`;
  - the family tag set by the base constructors.
- **Printer** (`print.py`): the device table rows and the single-device `modprobe` commands.
  Their card label `MeetingCam{id} {label}` is proved to round-trip through the pairing in
  `device.py`.
- **Runner and entry point** (`runner.py`, `main.py`):
  - path normalisation and family dispatch;
  - the flag checks of `main`;
  - the capture session: the three nested resources, the fixed per-frame step order, and
    the trigger tuple handed to the plugin.

Modelling choices:

- Frames are abstract records: height, width, channel order, mirrored flag, and the
  annotations drawn onto them.
- Exceptions are values of `Common.Error`, returned in a `Result`.
- `sys.exit` and its printed diagnostics are the outcome values `Device.Init`,
  `Runner.Start` and `Cli.Outcome`.
- The endless frame loop runs over a finite sequence of ticks. Each tick holds the hotkeys
  pressed and what the camera delivers. Running out of ticks stands for the user's Ctrl+C.
- The device enumeration (V4L2 nodes, the set of existing paths, the OAK device list), the
  camera's native size, the plugin's `process`, a depthai plugin's `acquisition` and the
  detector's boxes are all inputs.

Modules follow the source files:

| file | module | models |
|---|---|---|
| `common.dfy` | `Common` | constants of `constants.py` and the shared `Error`, `Option`, `Result` |
| `strings.dfy` | `Strings` | the Python string builtins the core relies on |
| `listing.dfy` | `Listing` | device records shared by `device.py` and `print.py` |
| `dicts.dfy` | `Dicts` | insertion-ordered Python dictionaries |
| `frames.dfy` | `Frames` | abstract frames |
| `capture.dfy` | `Capture` | `utils.py` captures |
| `hotkeys.dfy` | `Hotkeys` | `KeyHandler` |
| `arguments.dfy` | `Arguments` | `ArgumentHandler` |
| `nms.dfy` | `Nms` | `non_max_suppression`, `box_area` |
| `face.dfy` | `Face` | both `FaceDetection` plugins |
| `plugins.dfy` | `Plugins` | `plugin_utils.py` |
| `device.dfy` | `Device` | `device.py` |
| `printer.dfy` | `Printer` | `print.py` |
| `session.dfy` | `Session` | the session shared by `Runner.run` and `main` |
| `runner.dfy` | `Runner` | `Runner` |
| `cli.dfy` | `Cli` | `main` |

## Model

| member | source | states |
|---|---|---|
| Strings.FirstDigitRun | src/meetingcam/device.py:117-119 | `re.findall(r"\d+", s)[0]`: None (the IndexError) exactly when the label has no digit, otherwise a non-empty run of digits |
| Strings.FirstDigitRunOfInfix | src/meetingcam/device.py:117-119 | the first digit run of `p + d + q` is `d` when `p` has no digit and `q` does not continue the run |
| Strings.ParseIntOfIntToString | src/meetingcam/print.py:116-123 | `int(str(i)) == i` for every integer |
| Strings.ContainsIffOccurrence | src/meetingcam/device.py:133 | Python's `t in s` on strings holds iff `t` occurs at some position of `s` |
| Strings.RemoveDevicePrefix | src/meetingcam/device.py:120-122 | deleting "/dev/video" from "/dev/video" followed by digits leaves the digits |
| Listing.PathNumbers | src/meetingcam/device.py:120-122 | the numbers of all real paths: None (the ValueError) iff some path is not "/dev/video" plus an integer, else one number per device in order |
| Listing.PathNumberOfNode | src/meetingcam/print.py:116-118 | the number of `/dev/videoN` is N |
| Frames.SwapChannels | src/meetingcam/runner.py:71-72 | `cvtColor` swaps the channel order and changes nothing else |
| Frames.FlipHorizontal | src/meetingcam/runner.py:83-84 | `flip(frame, 1)` toggles the mirrored flag and changes nothing else |
| Frames.CorrectImgSize | src/meetingcam/utils.py:265-279 | each axis is clamped on its own to 720 rows and 1280 columns and never enlarged; a frame within both limits is returned unchanged |
| Frames.CorrectImgSizeIdempotent | src/meetingcam/utils.py:275-279 | correcting twice is correcting once |
| Capture.VideoCapture.constructor | src/meetingcam/utils.py:20-26 | the webcam capture reports min(camera width, 1280) × min(camera height, 720) |
| Capture.VideoCapture.GetFrame | src/meetingcam/utils.py:38-59 | RuntimeError iff the grab fails; otherwise the size-corrected frame with no detections |
| Capture.VideoCapture.Release | src/meetingcam/utils.py:34-36 | leaving the `with` block releases the camera |
| Capture.DepthaiCapture.constructor | src/meetingcam/utils.py:79-84 | the OAK capture reports exactly 1280 × 720 and has no acquisition bound yet |
| Capture.DepthaiCapture.Setup | src/meetingcam/utils.py:109-117 | the plugin's device setup runs once more and its acquisition function is bound |
| Capture.DepthaiCapture.GetFrame | src/meetingcam/utils.py:94-107 | the bound acquisition's frame, size-corrected, with its detections unchanged; its error passes through; AttributeError before `setup` |
| Capture.DepthaiCapture.Close | src/meetingcam/utils.py:90-92 | leaving the `with` block closes the device and keeps its acquisition |
| Hotkeys.Bound | src/meetingcam/utils.py:139-146 | a chord reaches only the callback registered under that chord |
| Hotkeys.BoundChord | src/meetingcam/utils.py:139-146 | each of the five callbacks is reached through its own chord, so no two share one |
| Hotkeys.Toggle | src/meetingcam/utils.py:164-192 | a callback negates its own switch and leaves the other four unchanged |
| Hotkeys.ReplayParity | src/meetingcam/utils.py:164-192 | after any presses a switch equals its start value XOR "pressed an odd number of times" |
| Hotkeys.KeyHandler.constructor | src/meetingcam/utils.py:137-154 | the switches start as f, l, n on, bgr2rgb off, mirror on |
| Hotkeys.KeyHandler.Start | src/meetingcam/runner.py:59-60 | the listener is running after `start()` |
| Hotkeys.KeyHandler.Stop | src/meetingcam/utils.py:160-162 | leaving the `with` block stops the listener |
| Hotkeys.KeyHandler.FTrigger | src/meetingcam/utils.py:164-167 | the handler state after the call is the f switch toggled |
| Hotkeys.KeyHandler.LTrigger | src/meetingcam/utils.py:169-172 | the handler state after the call is the l switch toggled |
| Hotkeys.KeyHandler.NTrigger | src/meetingcam/utils.py:174-177 | the handler state after the call is the n switch toggled |
| Hotkeys.KeyHandler.Bgr2RgbSwitch | src/meetingcam/utils.py:184-187 | the handler state after the call is the bgr2rgb switch toggled |
| Hotkeys.KeyHandler.MirrorSwitch | src/meetingcam/utils.py:189-192 | the handler state after the call is the mirror switch toggled |
| Hotkeys.KeyHandler.OnChord | src/meetingcam/utils.py:139-147 | a bound chord toggles exactly its switch; an unbound chord changes nothing |
| Hotkeys.KeyHandler.PressAll | src/meetingcam/utils.py:164-192 | a run of presses leaves the handler in the state of replaying them in order |
| Arguments.Check | src/meetingcam/utils.py:210-229 | InvalidArgumentError iff the list has odd length (length 1 included); empty and even-length lists pass |
| Arguments.IndexOf | src/meetingcam/utils.py:251 | `list.index` is the first position holding the name |
| Arguments.Get | src/meetingcam/utils.py:240-255 | None iff the name is absent; IndexError iff its first occurrence is the last element; otherwise the element right after that first occurrence |
| Arguments.GetAfterCheck | src/meetingcam/utils.py:210-255 | in an accepted list a name first found at a flag position always has its value |
| Arguments.GetRaisesAfterCheck | src/meetingcam/utils.py:210-255 | an accepted list can still make `get` raise, when the name occurs only as the last value |
| Nms.SelfOverlap | src/meetingcam/plugins/face_detection/utils.py:42-67 | for a well-formed box the suppression area exceeds `box_area`, which is at least 0, so the ratio never divides by zero; a box overlaps itself fully, so a duplicate of a pick is deleted iff the threshold is below 1 |
| Nms.Intersection | src/meetingcam/plugins/face_detection/utils.py:56-63 | the shared pixel count is never negative: width and height are clamped at 0 |
| Nms.IntersectionSymmetric | src/meetingcam/plugins/face_detection/utils.py:56-63 | the intersection does not depend on which of the two boxes was picked |
| Nms.OverlapAtThresholdSurvives | src/meetingcam/plugins/face_detection/utils.py:67-74 | an overlap ratio equal to the threshold does not suppress |
| Nms.Survivors | src/meetingcam/plugins/face_detection/utils.py:67-74 | an index stays listed iff it was listed before the picked one and the pick does not delete it |
| Nms.SurvivorsDistinct | src/meetingcam/plugins/face_detection/utils.py:71-74 | deletion keeps the index list free of repeats |
| Nms.SurvivorsSorted | src/meetingcam/plugins/face_detection/utils.py:71-74 | deletion keeps the index list ascending by y2 |
| Nms.SurvivorsInOrder | src/meetingcam/plugins/face_detection/utils.py:71-74 | deletion keeps the listed indices in the order they have in the argsort |
| Nms.LastIsHighest | src/meetingcam/plugins/face_detection/utils.py:43-50 | the last index of the argsort has the largest y2 of all boxes |
| Nms.RankedY2 | src/meetingcam/plugins/face_detection/utils.py:43 | a box later in the argsort has a y2 at least as large |
| Nms.NonMaxSuppression | src/meetingcam/plugins/face_detection/utils.py:8-77 | `[]` iff there are no boxes. Otherwise the picks are distinct valid indices with `boxes[pick]` in pick order. They come out in reverse argsort order, so by non-increasing y2, the first with the largest y2. No pick is suppressed by an earlier one, and every box left out is suppressed by a pick that comes after it in the argsort. Read from the end of the argsort, these clauses decide each box in turn, so only the greedy result meets them. The module is repeated unchanged in plugins/openvino_face_detection/utils.py |
| Nms.PickLoop | src/meetingcam/plugins/openvino_face_detection/utils.py:46-74 | the `while` loop under any deletion test: picks distinct and valid, in reverse argsort order and so by non-increasing y2, the first with the largest y2; none deletes a later pick; every unpicked box is deleted by a pick after it in the argsort; it ends because each pass drops the last index |
| Plugins.DirNames | src/meetingcam/plugins/plugin_utils.py:98 | exactly the directory entries' names, in listing order |
| Plugins.DirNamesConcat | src/meetingcam/plugins/plugin_utils.py:98 | listing order is kept: the names of two listings joined are those of the first, then those of the second; one entry contributes its name iff it is a directory |
| Plugins.RemoveFirst | src/meetingcam/plugins/plugin_utils.py:124 | `list.remove` shortens the list by one when the name occurs and leaves it alone otherwise |
| Plugins.RemoveFirstAt | src/meetingcam/plugins/plugin_utils.py:124 | `list.remove(x)` deletes exactly the first position holding `x` |
| Plugins.Visible | src/meetingcam/plugins/plugin_utils.py:123 | the names not starting with "." or "__" |
| Plugins.SweepSubsequence | src/meetingcam/plugins/plugin_utils.py:120-125 | `_sortout` only deletes: its result is a subsequence of its input |
| Plugins.SweepKeepsVisible | src/meetingcam/plugins/plugin_utils.py:120-125 | every name not starting with "." or "__" survives, in order, including names with one leading "_" |
| Plugins.SweepIsSkipping | src/meetingcam/plugins/plugin_utils.py:122-124 | for a listing without repeats, each removal makes the loop pass over the name that slid into the removed slot |
| Plugins.SkippingWithoutAdjacentHidden | src/meetingcam/plugins/plugin_utils.py:122-124 | with no two hidden names adjacent, the skipping pass removes every hidden name and keeps exactly the visible ones |
| Plugins.VisibleSubsequence | src/meetingcam/plugins/plugin_utils.py:120-125 | the intended filter only deletes: the visible names are a subsequence of the listing |
| Plugins.SortoutSkipsAfterRemoval | src/meetingcam/plugins/plugin_utils.py:122-124 | ".cache" followed by "__pycache__": the second hidden name is skipped and kept, where the intended filter keeps only "face_detection" |
| Plugins.PluginRegistry.Sortout | src/meetingcam/plugins/plugin_utils.py:120-125 | the list is changed in place and the same list is returned; the result is the skipping sweep of the old contents, a subsequence with the same visible names |
| Plugins.PluginRegistry.RegisterPlugins | src/meetingcam/plugins/plugin_utils.py:96-114 | every surviving directory name is accepted and collected in order |
| Plugins.PluginRegistry.constructor | src/meetingcam/plugins/plugin_utils.py:93-94 | the registry holds what `register_plugins` returns |
| Plugins.Plugin.Base | src/meetingcam/plugins/plugin_utils.py:30-31 | the base constructor sets the model directory and the webcam family |
| Plugins.Plugin.OnDevice | src/meetingcam/plugins/plugin_utils.py:67-68 | the depthai constructor runs the base one, then overrides the family with depthai |
| Face.Largest | src/meetingcam/plugins/openvino_face_detection/plugin.py:120-121 | the chosen face has the largest `box_area`, and no earlier box has that area |
| Face.Decorate | src/meetingcam/plugins/face_detection/plugin.py:83-113 | no boxes: the frame is untouched. Otherwise only annotations are appended: the largest box's outline iff drawing boxes, the name iff drawing names, the box first |
| Face.FaceDetection.constructor | src/meetingcam/plugins/openvino_face_detection/plugin.py:86-96 | the stored name is the argument in both branches, and the family is webcam |
| Face.FaceDetection.Process | src/meetingcam/plugins/openvino_face_detection/plugin.py:115-147 | no boxes: frame unchanged. Otherwise the largest face's box is drawn iff trigger 0; for a truthy name it is drawn iff trigger 2; without one, only boxes are drawn. Exactly one annotation per enabled drawing is added, the box first |
| Face.ProcessIgnoresSecondTrigger | src/meetingcam/plugins/openvino_face_detection/plugin.py:125-146 | trigger 1 has no effect on the output |
| Face.EarlierFaceDetection.constructor | src/meetingcam/plugins/face_detection/plugin.py:56-61 | a missing name becomes "Code Ninja"; any other value is stored as given |
| Face.EarlierFaceDetection.Process | src/meetingcam/plugins/face_detection/plugin.py:81-113 | no boxes: frame unchanged. Otherwise the largest face's box is drawn iff trigger 0, and a non-empty name iff trigger 1. Exactly one annotation per enabled drawing is added, the box first |
| Face.EarlierDefaultNameDrawn | src/meetingcam/plugins/face_detection/plugin.py:56-112 | a plugin built without a name draws "Code Ninja" above the largest face when trigger 1 is set |
| Dicts.Put | src/meetingcam/print.py:121-124 | assigning a key maps it to the value; a new key goes to the end of the order, an existing one keeps its place |
| Dicts.FromPairs | src/meetingcam/device.py:58-61 | a dictionary filled by successive assignments lists each key once, exactly the keys it maps |
| Dicts.FromPairsLastWins | src/meetingcam/device.py:58-61 | a key is present iff some pair assigns it, and it holds the value of the last such pair |
| Dicts.KeySource | src/meetingcam/device.py:58-64 | a present key was assigned by some pair |
| Dicts.AssignedKey | src/meetingcam/device.py:58-64 | every assigned key is present |
| Dicts.FromPairsValue | src/meetingcam/device.py:58-67 | a key holds the value of the last pair that assigns it |
| Dicts.FromPairsFirstKey | src/meetingcam/device.py:79-83 | the first item of a non-empty dictionary carries the first pair's key |
| Device.GetDeviceInfo | src/meetingcam/device.py:201-222 | the node's path and label; AssertionError iff the path lacks "/dev/video" or does not exist |
| Device.Selected | src/meetingcam/device.py:163-178 | the nodes kept are exactly the wanted ones, in enumeration order |
| Device.SelectedConcat | src/meetingcam/device.py:163-178 | enumeration order is kept: the nodes of two enumerations joined are those of the first, then those of the second; one node is kept iff it is wanted |
| Device.Listed | src/meetingcam/device.py:150-183 | AssertionError iff some wanted node is rejected; otherwise one (path, label) per wanted node in enumeration order |
| Device.GetAvailable | src/meetingcam/device.py:150-183 | the enumeration loop computes exactly `Listed` |
| Device.ListedIffWanted | src/meetingcam/device.py:165-178 | listed as real iff not loopback and capture-capable; listed as virtual iff loopback and output-capable; never both |
| Device.GetAvailableDepthai | src/meetingcam/device.py:309-324 | the loop over the OAK devices builds exactly `OakDevices` |
| Device.OakDevices | src/meetingcam/device.py:318-324 | one device per OAK device, in order: path is the mxid, label is "OAK Device on port " plus its name |
| Device.VirtualIds | src/meetingcam/device.py:117-119 | IndexError iff some virtual label has no digit; otherwise each label's first number, in order |
| Device.FirstIndex | src/meetingcam/device.py:125 | `ids.index(x)`: None (the ValueError) iff `x` is absent, otherwise its first position |
| Device.WebcamIndices | src/meetingcam/device.py:124-127 | None (the caught error) iff some id has no real counterpart; otherwise the first real position of each id |
| Device.Matches | src/meetingcam/device.py:132-134 | the virtual positions whose label contains the mxid: exactly those, each once, in ascending order |
| Device.DepthaiIndices | src/meetingcam/device.py:129-134 | a position is stored iff it is a virtual position whose label contains some real mxid: every stored index has such a device, and every such (real, virtual) pair stores its virtual position |
| Device.DepthaiIndicesSnoc | src/meetingcam/device.py:129-134 | the outer loop is over the real devices: one more real device appends its ascending matches after those of the devices before it, so the order is real-major |
| Device.Pairing | src/meetingcam/device.py:140-146 | IndexError iff some index is outside the real list or there are more entries than virtual devices; otherwise entry k pairs real device `indices[k]` with virtual device k |
| Device.Mapping | src/meetingcam/device.py:102-148 | Unknown family: NotImplementedError. Webcam: IndexError for a label without a number, ValueError for a real path without one, and success otherwise. One id without a real counterpart empties the whole mapping. With every id found there is one entry per virtual device, and entry i pairs virtual device i with the first real device carrying its id. Depthai: the pairing of the stored virtual positions |
| Device.DeviceMapping | src/meetingcam/device.py:102-148 | the comprehensions and loops compute exactly `Mapping` |
| Device.DepthaiIndexLoop | src/meetingcam/device.py:129-134 | the nested loops append the matches in real-major order |
| Device.PairLoop | src/meetingcam/device.py:140-146 | the final loop computes exactly `Pairing` |
| Device.CardLabelId | src/meetingcam/print.py:121-125 | the first number of the printed card label `MeetingCam{n} {label}` is `n` |
| Device.NodeNumbers | src/meetingcam/device.py:120-122 | the path numbers of `/dev/videoN` nodes are the N's |
| Device.LabelIds | src/meetingcam/device.py:117-119 | the id read back from each printed label is the number of the camera it was printed for |
| Device.DistinctLookup | src/meetingcam/device.py:124-125 | with distinct node numbers, each id is found at the camera it came from |
| Device.FirstIndexOfDistinct | src/meetingcam/device.py:125 | in a list without repeats `index` returns the position the value came from |
| Device.WebcamRoundTrip | src/meetingcam/device.py:116-146 | a virtual camera made with the printed webcam command is paired with exactly the real camera the command was printed for |
| Device.CorrectedDepthaiMapping | src/meetingcam/device.py:129-146 | the intended depthai mapping: every entry pairs a real device with a virtual one whose label contains its mxid, and every such pair is present |
| Device.PairsFor | src/meetingcam/device.py:131-134 | the entries of one OAK device are exactly the virtual devices whose label contains its mxid |
| Device.DepthaiRoundTrip | src/meetingcam/print.py:133-140 | a virtual camera made with the printed depthai command is paired with its OAK device by the corrected mapping |
| Device.DepthaiMappingMispairs | src/meetingcam/device.py:129-146 | as written, the virtual position indexes the real list: a virtual camera labelled with the second OAK device's mxid is paired with the first one |
| Device.PathPairs | src/meetingcam/device.py:58-61 | one (real path, virtual path) pair per mapping entry, in entry order |
| Device.Building | src/meetingcam/device.py:225-324 | the listings and mapping a handler of either family starts with: built iff its real listing (webcam only), its virtual listing and its mapping succeed, otherwise the first error |
| Device.DeviceHandler.constructor | src/meetingcam/device.py:228-237 | the handler starts with its family, listings and mapping, and no real path |
| Device.DeviceHandler.WebcamDevice | src/meetingcam/device.py:225-260 | built iff both listings and the webcam mapping succeed, with those listings and that mapping and no real path; otherwise the first error. Either way it agrees with `Building` |
| Device.DeviceHandler.DepthaiDevice | src/meetingcam/device.py:263-324 | built iff the virtual listing and the depthai mapping over the OAK devices succeed. It holds the OAK devices as real cameras, the loopback devices as virtual ones, and that mapping, with no real path. Otherwise AssertionError from the listing or IndexError from the pairing. Either way it agrees with `Building` |
| Device.InitResultCases | src/meetingcam/device.py:49-100 | how `init_device` ends (`InitResult`). It returns a virtual path iff the path is truthy and has a counterpart in the mapping, and that path is the one of its last entry. A truthy path without one prints the not-available notice, the device table of `Printer.Table` and the main command, then exits. No path with a mapping prints the table and the main command and exits. No path and no mapping prints the notice, the table, the commands of `Printer.SetupCommands` and the main command, then exits; it raises iff those commands raise, with the notice and the table already printed, and only NotImplementedError or ValueError |
| Device.BuiltInitNeverRaises | src/meetingcam/device.py:91-99 | for a handler that was built, the setup commands of its real cameras succeed, so `init_device` never raises |
| Device.DeviceHandler.InitDevice | src/meetingcam/device.py:49-100 | ends exactly as `InitResult` says. The real path becomes the given path when a virtual one is returned, and the first entry's real path when no path is given and the mapping is not empty; otherwise it is unchanged |
| Device.DeviceHandler.Build | src/meetingcam/runner.py:29-36 | the handler of the requested family: built iff `Building` succeeds, and then holding exactly its listings and mapping with no real path; otherwise `Building`'s error |
| Device.DeviceHandler.Open | src/meetingcam/device.py:49-100 | building the handler, then its `init_device`: built iff `Building` succeeds, and then it ends as `InitResult` says for the handler's mapping. It never raises, and it returns a virtual path iff the given path has a counterpart. The real path is then that path and the virtual path that of its last entry |
| Device.DeviceHandler.GetWebcamCapture | src/meetingcam/device.py:239-255 | LookupError iff the real path is unset or empty; otherwise a fresh capture of that path with the clamped size |
| Device.DeviceHandler.GetDepthaiCapture | src/meetingcam/device.py:281-302 | LookupError iff the real path is unset or empty; otherwise the device info is recorded and a fresh 1280 × 720 capture of that mxid opened |
| Printer.LastVirtualLabel | src/meetingcam/print.py:84-87 | None iff no mapping entry has the path; otherwise the label of the last entry that has it |
| Printer.Table | src/meetingcam/print.py:81-93 | one row per real device in enumeration order, with its name, its path and the last matching virtual label or None |
| Printer.AvailableDevices | src/meetingcam/print.py:81-93 | the nested scan builds exactly the rows of `Table` |
| Printer.WebcamAssignments | src/meetingcam/print.py:116-124 | one (label, command) per webcam: `devices=1 video_nr={n} card_label='MeetingCam{n} {label}'` |
| Printer.DepthaiAssignments | src/meetingcam/print.py:133-139 | one (label, command) per OAK device, without `video_nr` and with the mxid in the card label |
| Printer.Assign | src/meetingcam/print.py:120-124 | the assignment loop builds the dictionary of its pairs |
| Printer.SetupCommands | src/meetingcam/print.py:97-153 | Unknown family: NotImplementedError. Webcam: ValueError iff some path is not `/dev/video` plus an integer. Otherwise the commands keyed by label; empty when there are no cameras |
| Printer.AddVirtualDevices | src/meetingcam/print.py:97-153 | the family dispatch and the assignment loop compute exactly `SetupCommands` |
| Printer.CommandPerLabel | src/meetingcam/print.py:120-124 | every camera label gets exactly one command, that of the last camera carrying it |
| Session.StepLayout | src/meetingcam/runner.py:70-86 | when the plugin only draws, the frame sent has the camera's channel order iff bgr2rgb is on and is mirrored iff mirror is on; the plugin saw (f, l, n) |
| Session.Loop | src/meetingcam/runner.py:66-90 | at most one send and one sleep per tick; the loop ends without error iff every tick sent; the trace alternates send and sleep |
| Session.Entered | src/meetingcam/runner.py:66-90 | the ticks the loop enters, at most all of them: two events for each tick that sends, plus the tick that raises |
| Session.AlternatingPositions | src/meetingcam/runner.py:89-90 | the sends are at even positions and the sleeps at odd ones |
| Session.SentFrame | src/meetingcam/runner.py:66-89 | the k-th frame sent is tick k's frame run through swap, process, mirror and conversion, under the switches after every press up to tick k |
| Session.LoopGrabFails | src/meetingcam/runner.py:68 | an acquisition error ends the loop before anything is sent for that tick |
| Session.LoopStepFails | src/meetingcam/runner.py:80 | an error of `process` ends the loop before anything is sent for that tick |
| Session.LoopSends | src/meetingcam/runner.py:66-90 | a tick that is read and processed sends its frame, sleeps and goes on |
| Session.PressesSnoc | src/meetingcam/utils.py:164-192 | the presses of one more tick come after those of the ticks before it |
| Session.Opening | src/meetingcam/runner.py:46-63 | real camera first; setup only for OAK devices, right after it; virtual camera with the capture's size at 24 fps; listener; running notice |
| Session.LoopNeutral | src/meetingcam/runner.py:66-90 | frame events open and close nothing and never set a device up |
| Session.OpeningResources | src/meetingcam/runner.py:46-60 | the opening events open the real camera, the virtual camera and the listener, in that order |
| Session.ClosingResources | src/meetingcam/runner.py:46-60 | the unwinding closes the listener, the virtual camera and the real camera, in that order |
| Session.ReleaseReversed | src/meetingcam/runner.py:46-60 | whatever the loop did, the session closes exactly what it opened, in reverse order |
| Session.SetupOnlyForOak | src/meetingcam/runner.py:48-49 | the device setup happens iff the real camera is an OAK device |
| Session.RunShape | src/meetingcam/main.py:93-107 | for either family: setup iff OAK device, resources opened real, virtual, listener and closed in reverse |
| Session.GetFrame | src/meetingcam/runner.py:68 | the chosen camera's `get_frame` |
| Session.Pass | src/meetingcam/runner.py:66-86 | one pass: the tick's presses reach the switches, then the frame is read and run through the pipeline under the new switches |
| Session.FrameLoop | src/meetingcam/runner.py:66-90 | the `while` loop over the ticks produces exactly the events and error of `Loop` from the handler's switches, and leaves the switches as the presses of the entered ticks leave them |
| Session.Run | src/meetingcam/runner.py:43-90 | LookupError before anything opens when no real path is set. Otherwise the trace is exactly `SessionTrace`: the opening with the clamped size for a webcam or 1280 × 720 for an OAK device, the loop from the initial switches, then the closing. The session ends by interrupt iff the loop ran out of ticks, else with the loop's error. An OAK device records its mxid as device info; nothing else changes it. `main` runs the same session (main.py lines 93-137) |
| Runner.NormalisePath | src/meetingcam/runner.py:24-25 | as written: a string passes, an enum member gives its value, None raises AttributeError |
| Runner.NormalisePathIntended | src/meetingcam/runner.py:24-25 | the intended normalisation: None stays None |
| Runner.NormaliseNoneRaises | src/meetingcam/runner.py:24-25 | the two agree except that the written one raises on None |
| Runner.Runner.Create | src/meetingcam/runner.py:12-41 | AttributeError for a None path; ValueError for a family other than webcam and depthai; the handler's error when it cannot be built. Once the handler is built, `init_device` never raises. Ready iff the path has a virtual counterpart; then the handler is of the plugin's family, its real camera is that path, and the virtual path is `InitResult`'s. Otherwise the outcome is `InitResult`'s exit with its console |
| Runner.Runner.Run | src/meetingcam/runner.py:43-90 | the session never lacks a real path, and its trace is exactly `SessionTrace` for the plugin's family, real path and virtual path. Setup iff depthai plugin; resources released in reverse; ends as the loop says; the device info is the real path for a depthai plugin and unchanged otherwise |
| Cli.ChoosePlugin | src/meetingcam/main.py:46-72 | `--depthai` selects Yolov5. `--roboflow` reads its three options in order, raising IndexError iff one of them is last. Otherwise the face plugin with `--name` |
| Cli.Validate | src/meetingcam/main.py:74-90 | NotImplementedError for a plugin without a family; InvalidArgumentError iff the family disagrees with the `--depthai` flag |
| Cli.ChosenPluginsPassValidation | src/meetingcam/main.py:46-90 | the plugins `main` builds always pass its own checks |
| Cli.OpenDevice | src/meetingcam/main.py:46-72 | the handler of the `--depthai` family and its `init_device`: the handler's error stops `main`. A built handler never raises in `init_device`. A camera is chosen iff the path has a virtual counterpart, with `InitResult`'s virtual path; otherwise `main` exits with `InitResult`'s console |
| Cli.RunSession | src/meetingcam/main.py:92-137 | the session of `main` always runs. Its trace is exactly `SessionTrace` for the family, real path and virtual path; it opens the real camera first, sets an OAK device up iff `--depthai`, releases in reverse and ends as its loop says |
| Cli.ValidateAndRun | src/meetingcam/main.py:74-137 | the configuration checks, then the session: the check's error when it fails, otherwise the session with the trace of `SessionTrace` |
| Cli.Proceed | src/meetingcam/main.py:46-137 | once the plugin is built: the handler's error; `init_device`'s exit with its console; the configuration check's error; or the session with the trace of `SessionTrace` on the given path and `InitResult`'s virtual path. A session runs iff the handler is built, the path has a virtual counterpart and the checks pass |
| Cli.Launch | src/meetingcam/main.py:28-137 | bad extra arguments fail before any plugin or device exists, and a missing roboflow option value raises IndexError. A session runs iff the arguments pass, the handler is built and the path has a virtual counterpart. With good arguments, `main` fails with the handler's error, exits with `InitResult`'s console, or runs the session whose trace is exactly `SessionTrace`; it never raises in `init_device`. The session sets an OAK device up iff `--depthai`, releases in reverse, and ends as its loop says |

## Left out

- Pixel work is left out because it happens in OpenCV and the detector: reading, resizing, colour conversion, flipping, drawing, and face-detector inference. Frames are abstract records, and the detector's boxes are an input.
- Face.FaceDetection.Process anchors the name at the box's top-left corner. The upward offset `int(h * 0.03)` and the font and thickness scales are float arithmetic on the image height, so they are left out. The same holds for Face.EarlierFaceDetection.Process.
- The face plugins' model-file check and its `sys.exit` are not part of this model. It is a filesystem probe taken before any modelled logic.
- Console styling, the banner texts and the status prints of the hotkey callbacks are left out because they have no effect on state.
- The multi-device `modprobe` command and the unused string assembly in `available_devices` are left out. Both rest on the `repr` of Python lists.
- Device.DeviceHandler.InitDevice records the `run_main_command` calls at device.py lines 75, 88 and 99 as a `MainCommand` console event and then exits. The `print.py` of this repository defines no `run_main_command`, so as written each of those three calls raises AttributeError after the preceding prints, where the model prints `MainCommand` and exits. The same holds for every member whose contract mentions `InitResult`.
- The V4L2 enumeration, `Path.exists` and the OAK SDK's device list are inputs. This covers the node list, the set of existing paths and the list of OAK devices.
- `update_available` is folded into the handler factories `WebcamDevice` and `DepthaiDevice`.
- The SIGINT handler is not modelled as a separate handler. The loop's end by running out of ticks is the interrupt.
- Session.Loop does not model the endless loop itself: it runs over a finite sequence of ticks, and a run of any length is one of those sequences.
- Concurrency between the hotkey thread and the frame loop is not modelled. Presses take effect between two frames.
- Strings.FirstDigitRun matches only the ASCII digits '0' to '9', while Python's `\d` also matches every other Unicode decimal digit. A virtual label whose first number is written in, say, Arabic-Indic digits therefore gets a different id in Device.VirtualIds than in `device.py`. The card labels that print.py suggests write the id in ASCII digits.
- Strings.ParseInt does not accept the surrounding whitespace, digit-group underscores or non-ASCII digits that Python's `int()` accepts. The core only parses device numbers.
- The depthai pipeline, the USB speed and `depthai.DeviceInfo` are not part of this model; only the recorded device info is kept.
- The Yolov5 and Roboflow plugins' construction is not part of this model. This covers model download, remote inference and the pipeline. `main` is modelled only by the plugin it chooses and that plugin's family.
- `ArgumentHandler.print`, `get_fps` and `import_plugin` are left out: they print, return a camera property, and import dynamically.
- `help.py`, `plugin_template.py`, `plugin_base.py` and `device_choice` are not part of this model.
- The order of equal y2 values in `np.argsort` is not specified. Nms.NonMaxSuppression takes the argsort as an input required to be ascending by y2 and a permutation.
- IEEE division by a zero area in the overlap ratio is modelled by its outcome: a positive intersection gives infinity and suppresses, a zero one gives NaN and does not. Other float rounding of the ratio is not modelled; the ratio is exact.

## Findings

| source | as written | input that shows it | evidently intended | confidence | as-written member | corrected member |
|---|---|---|---|---|---|---|
| src/meetingcam/device.py:129-146 | the depthai loops store the virtual position `j`, and the pairing then reads `paths_real[j]` | OAK devices with mxids "7" and "8", one virtual camera labelled "8": its entry names the device "7" | pair each virtual camera with the OAK device whose mxid its label contains | not executed | Device.DepthaiMappingMispairs | Device.CorrectedDepthaiMapping |
| src/meetingcam/runner.py:24-25 | `type(device_path) is not None` always holds, so a None path takes `.value` | `Runner(plugin)` with its default `device_path=None` raises AttributeError | `device_path is not None`: None stays None and reaches `init_device` | not executed | Runner.NormaliseNoneRaises | Runner.NormalisePathIntended |
| src/meetingcam/plugins/plugin_utils.py:120-125 | `_sortout` removes names from the list its `for` loop is iterating, so the name after each removed one is never examined | `[".cache", "__pycache__", "face_detection"]` keeps `"__pycache__"` | drop every name starting with "." or "__", as the docstring says | not executed | Plugins.SortoutSkipsAfterRemoval | Plugins.VisibleSubsequence |

The handlers, the runner and the plugin registry keep the code as written. The corrected depthai mapping carries
the round trip with the printed setup commands (Device.DepthaiRoundTrip).
The intended directory filter is Plugins.Visible: its contract keeps exactly the names that
are not hidden, and Plugins.VisibleSubsequence keeps their order. Plugins.PluginRegistry.Sortout
is proved to leave that filter's result unchanged.
