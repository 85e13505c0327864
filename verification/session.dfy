/** The capture session shared by `Runner.run` (runner.py) and the tail of `main` (main.py):
    open the real camera, set up an OAK device, open the virtual camera with the real
    camera's size, start the hotkey listener, then push frames until something raises or the
    user interrupts; the three resources are released in reverse order. The endless loop
    runs over a finite sequence of ticks (hotkey presses, then one camera read); running out
    of ticks is the interrupt. Each effect is recorded as an event of a trace. */
module Session {
  import opened Common
  import opened Frames
  import opened Hotkeys
  import Capture
  import Device

  /** The frame rate the virtual camera is opened with. */
  const Fps: nat := 24

  datatype Event =
    | OpenReal(path: string)                                   // `get_device()` entered
    | DeviceSetup                                              // `r_cam.setup(...)`
    | OpenVirtual(width: nat, height: nat, fps: nat, device: string)
    | StartHotkeys                                             // `KeyHandler()` entered, `start()`
    | Running                                                  // `device_running()`
    | Send(frame: Frame)                                       // `v_cam.send(frame)`
    | Sleep                                                    // `sleep_until_next_frame()`
    | StopHotkeys
    | CloseVirtual
    | CloseReal

  /** What happens between two frames: the hotkeys pressed, then what the camera delivers. */
  datatype Tick = Tick(presses: seq<Hotkey>, raw: Capture.RawFrame)

  /** A plugin's `process(frame, detection, trigger)`; an exception is an `Err`. */
  type ProcessFn = (Frame, Option<seq<Detection>>, (bool, bool, bool)) -> Result<Frame>

  /** How a session ends: by the interrupt, or by an exception leaving the loop. */
  datatype Outcome = Interrupted | Raised(error: Error)

  /** The opened real camera: a webcam, or an OAK device. */
  datatype Camera = WebcamCam(webcam: Capture.VideoCapture) | OakCam(oak: Capture.DepthaiCapture)

  /** `get_frame` of the camera in use: a webcam when `acquisition` is None, otherwise an OAK
      device whose plugin acquisition is bound. */
  function Grab(acquisition: Option<Capture.AcquireFn>, raw: Capture.RawFrame): Result<Acquired>
  {
    match acquisition
    case None =>
      if !raw.grabbed then Err(RuntimeError) else Ok(Acquired(CorrectImgSize(raw.image), None))
    case Some(acquire) =>
      match acquire(raw)
      case Err(e) => Err(e)
      case Ok(a) => Ok(Acquired(CorrectImgSize(a.frame), a.detections))
  }

  /** The per-frame pipeline after acquisition: optional channel swap, plugin, optional
      mirror, the mandatory BGR-to-RGB conversion. */
  function Step(acq: Acquired, flags: Flags, process: ProcessFn): Result<Frame>
  {
    var input := if flags.bgr2rgb then SwapChannels(acq.frame) else acq.frame;
    match process(input, acq.detections, Trigger(flags))
    case Err(e) => Err(e)
    case Ok(out) => Ok(SwapChannels(if flags.mirror then FlipHorizontal(out) else out))
  }

  /** The plugin leaves the channel order and the orientation of its input alone. */
  predicate KeepsLayout(process: ProcessFn, input: Frame, detections: Option<seq<Detection>>, trigger: (bool, bool, bool))
  {
    process(input, detections, trigger).Ok? ==>
      process(input, detections, trigger).value.order == input.order &&
      process(input, detections, trigger).value.mirrored == input.mirrored
  }

  /** What the virtual camera receives when the plugin only draws: the channel order is
      the camera's exactly when the bgr2rgb switch is on, the image is mirrored exactly when
      the mirror switch is on, and the plugin saw the (f, l, n) triggers. */
  lemma StepLayout(acq: Acquired, flags: Flags, process: ProcessFn)
    requires KeepsLayout(process, if flags.bgr2rgb then SwapChannels(acq.frame) else acq.frame, acq.detections, Trigger(flags))
    requires Step(acq, flags, process).Ok?
    ensures Step(acq, flags, process).value.order == (if flags.bgr2rgb then acq.frame.order else Swapped(acq.frame.order))
    ensures Step(acq, flags, process).value.mirrored == (acq.frame.mirrored != flags.mirror)
    ensures Step(acq, flags, process) ==
      Ok(SwapChannels(
        var out := process(if flags.bgr2rgb then SwapChannels(acq.frame) else acq.frame, acq.detections, (flags.f, flags.l, flags.n)).value;
        if flags.mirror then FlipHorizontal(out) else out))
  {
    var input := if flags.bgr2rgb then SwapChannels(acq.frame) else acq.frame;
    assert Swapped(Swapped(acq.frame.order)) == acq.frame.order;
    assert input.mirrored == acq.frame.mirrored;
  }

  /** The loop's events from flags `flags` on: per tick, the presses are applied, then a
      frame is read, processed and sent, then the loop sleeps; the first exception ends
      the loop without a send and is returned. */
  function Loop(flags: Flags, ticks: seq<Tick>, acquisition: Option<Capture.AcquireFn>, process: ProcessFn): (r: (seq<Event>, Option<Error>))
    ensures |r.0| <= 2 * |ticks|
    ensures r.1.None? <==> |r.0| == 2 * |ticks|
    ensures Alternating(r.0)
    decreases |ticks|
  {
    if ticks == [] then ([], None)
    else
      var now := Replay(flags, ticks[0].presses);
      match Grab(acquisition, ticks[0].raw)
      case Err(e) => ([], Some(e))
      case Ok(acq) =>
        match Step(acq, now, process)
        case Err(e) => ([], Some(e))
        case Ok(frame) =>
          var rest := Loop(now, ticks[1..], acquisition, process);
          assert ([Send(frame), Sleep] + rest.0)[2..] == rest.0;
          ([Send(frame), Sleep] + rest.0, rest.1)
  }

  /** How many ticks the loop enters from flags `flags` on: every tick that sends, and the
      tick whose read or processing raises. The presses of exactly these ticks are applied. */
  function Entered(flags: Flags, ticks: seq<Tick>, acquisition: Option<Capture.AcquireFn>, process: ProcessFn): (n: nat)
    ensures n <= |ticks|
    ensures var r := Loop(flags, ticks, acquisition, process);
      |r.0| + (if r.1.Some? then 2 else 0) == 2 * n
    decreases |ticks|
  {
    if ticks == [] then 0
    else
      var now := Replay(flags, ticks[0].presses);
      match Grab(acquisition, ticks[0].raw)
      case Err(_) => 1
      case Ok(acq) =>
        match Step(acq, now, process)
        case Err(_) => 1
        case Ok(_) => 1 + Entered(now, ticks[1..], acquisition, process)
  }

  /** Sends and sleeps taking turns, starting with a send and ending with a sleep. */
  predicate Alternating(t: seq<Event>)
    decreases |t|
  {
    t == [] || (|t| >= 2 && t[0].Send? && t[1] == Sleep && Alternating(t[2..]))
  }

  /** In an alternating trace the sends are at the even positions and the sleeps at the odd
      ones. */
  lemma {:induction false} AlternatingPositions(t: seq<Event>)
    requires Alternating(t)
    ensures |t| % 2 == 0
    ensures forall k :: 0 <= k < |t| ==> (t[k].Send? <==> k % 2 == 0) && (t[k] == Sleep <==> k % 2 == 1)
    decreases |t|
  {
    if t != [] {
      var u := t[2..];
      AlternatingPositions(u);
      forall k | 2 <= k < |t|
        ensures (t[k].Send? <==> k % 2 == 0) && (t[k] == Sleep <==> k % 2 == 1)
      {
        assert t[k] == u[k - 2];
      }
    }
  }

  /** All presses of the ticks, in order. */
  function Presses(ticks: seq<Tick>): seq<Hotkey>
  {
    if ticks == [] then [] else ticks[0].presses + Presses(ticks[1..])
  }

  lemma {:induction false} ReplayAppend(s: Flags, a: seq<Hotkey>, b: seq<Hotkey>)
    ensures Replay(s, a + b) == Replay(Replay(s, a), b)
    decreases a
  {
    if a == [] {
      assert a + b == b;
    } else {
      assert (a + b)[0] == a[0] && (a + b)[1..] == a[1..] + b;
      ReplayAppend(Toggle(s, a[0]), a[1..], b);
    }
  }

  /** Frame `k` that is sent is frame `k` read and run through the pipeline with the flags
      of every press up to and including tick `k`. */
  lemma {:induction false} SentFrame(flags: Flags, ticks: seq<Tick>, acquisition: Option<Capture.AcquireFn>, process: ProcessFn, k: nat)
    requires 2 * k < |Loop(flags, ticks, acquisition, process).0|
    ensures k < |ticks| && Grab(acquisition, ticks[k].raw).Ok?
    ensures var fl := Replay(flags, Presses(ticks[..k + 1]));
      Step(Grab(acquisition, ticks[k].raw).value, fl, process).Ok? &&
      Loop(flags, ticks, acquisition, process).0[2 * k] == Send(Step(Grab(acquisition, ticks[k].raw).value, fl, process).value)
    decreases k, 1
  {
    if k == 0 {
      SentFirst(flags, ticks, acquisition, process);
    } else {
      SentLater(flags, ticks, acquisition, process, k);
    }
  }

  /** The first frame sent is the first tick's, with that tick's presses applied. */
  lemma SentFirst(flags: Flags, ticks: seq<Tick>, acquisition: Option<Capture.AcquireFn>, process: ProcessFn)
    requires 0 < |Loop(flags, ticks, acquisition, process).0|
    ensures 0 < |ticks| && Grab(acquisition, ticks[0].raw).Ok?
    ensures var fl := Replay(flags, Presses(ticks[..1]));
      Step(Grab(acquisition, ticks[0].raw).value, fl, process).Ok? &&
      Loop(flags, ticks, acquisition, process).0[0] == Send(Step(Grab(acquisition, ticks[0].raw).value, fl, process).value)
  {
    LoopHead(flags, ticks, acquisition, process);
    assert Replay(flags, Presses(ticks[..1])) == Replay(flags, ticks[0].presses) by {
      FlagsAt(flags, ticks, 0);
      assert ticks[1..][..0] == [];
    }
  }

  /** A later frame sent is the one the loop from the second tick on sends one step earlier. */
  lemma {:induction false} SentLater(flags: Flags, ticks: seq<Tick>, acquisition: Option<Capture.AcquireFn>, process: ProcessFn, k: nat)
    requires 0 < k && 2 * k < |Loop(flags, ticks, acquisition, process).0|
    ensures k < |ticks| && Grab(acquisition, ticks[k].raw).Ok?
    ensures var fl := Replay(flags, Presses(ticks[..k + 1]));
      Step(Grab(acquisition, ticks[k].raw).value, fl, process).Ok? &&
      Loop(flags, ticks, acquisition, process).0[2 * k] == Send(Step(Grab(acquisition, ticks[k].raw).value, fl, process).value)
    decreases k, 0
  {
    var now, rest := Replay(flags, ticks[0].presses), ticks[1..];
    LoopHead(flags, ticks, acquisition, process);
    SentFrame(now, rest, acquisition, process, k - 1);
    FlagsLater(flags, ticks, k);
    var fl := Replay(flags, Presses(ticks[..k + 1]));
    var e := Send(Step(Grab(acquisition, ticks[k].raw).value, fl, process).value);
    ShiftedSend(Loop(flags, ticks, acquisition, process).0, Loop(now, rest, acquisition, process).0, k, e);
  }

  /** The flags at a later tick `k`, as the loop from the second tick on sees them. */
  lemma FlagsLater(flags: Flags, ticks: seq<Tick>, k: nat)
    requires 0 < k < |ticks|
    ensures Replay(flags, Presses(ticks[..k + 1])) == Replay(Replay(flags, ticks[0].presses), Presses(ticks[1..][..k - 1 + 1]))
    ensures ticks[1..][k - 1] == ticks[k]
  {
    FlagsAt(flags, ticks, k);
    assert ticks[1..][..k - 1 + 1] == ticks[1..][..k];
  }

  /** A trace that starts with a send and a sleep has at position `2 * k` what the rest has
      at `2 * (k - 1)`. */
  lemma ShiftedSend(whole: seq<Event>, tail: seq<Event>, k: nat, e: Event)
    requires 0 < k && |whole| == |tail| + 2 && whole[2..] == tail
    requires 2 * (k - 1) < |tail| && tail[2 * (k - 1)] == e
    ensures 2 * k < |whole| && whole[2 * k] == e
  {
    assert whole[2 * k] == whole[2..][2 * (k - 1)];
  }

  lemma Associative<T>(a: seq<T>, b: seq<T>, c: seq<T>)
    ensures a + (b + c) == (a + b) + c
  {
  }

  lemma ReverseThree<T>(x: T, y: T, z: T)
    ensures Reverse([x, y, z]) == [z, y, x]
  {
    assert [x, y, z][1..] == [y, z] && [y, z][1..] == [z] && [z][1..] == [];
  }

  /** The flags at tick `k` are those at tick 0 with the presses of ticks 1 to `k` replayed. */
  lemma FlagsAt(flags: Flags, ticks: seq<Tick>, k: nat)
    requires k < |ticks|
    ensures Replay(flags, Presses(ticks[..k + 1])) == Replay(Replay(flags, ticks[0].presses), Presses(ticks[1..][..k]))
  {
    PressesPrefix(ticks, k);
    ReplayAppend(flags, ticks[0].presses, Presses(ticks[1..][..k]));
  }

  /** A loop that sends anything sends the first tick's frame, sleeps, and goes on from the
      next tick. */
  lemma LoopHead(flags: Flags, ticks: seq<Tick>, acquisition: Option<Capture.AcquireFn>, process: ProcessFn)
    requires |Loop(flags, ticks, acquisition, process).0| > 0
    ensures ticks != [] && Grab(acquisition, ticks[0].raw).Ok?
    ensures var now := Replay(flags, ticks[0].presses);
      var acq := Grab(acquisition, ticks[0].raw).value;
      Step(acq, now, process).Ok? &&
      Loop(flags, ticks, acquisition, process).0 ==
        [Send(Step(acq, now, process).value), Sleep] + Loop(now, ticks[1..], acquisition, process).0
  {
  }

  /** The presses of one more tick come after those of the ticks before it. */
  lemma {:induction false} PressesSnoc(ticks: seq<Tick>, k: nat)
    requires k < |ticks|
    ensures Presses(ticks[..k + 1]) == Presses(ticks[..k]) + ticks[k].presses
    decreases k
  {
    if k == 0 {
      assert ticks[..1][1..] == [] && ticks[..0] == [];
      assert ticks[0].presses + [] == [] + ticks[0].presses;
    } else {
      PressesPrefix(ticks, k);
      PressesSnoc(ticks[1..], k - 1);
      PressesPrefix(ticks, k - 1);
      assert ticks[1..][k - 1] == ticks[k];
      Associative(ticks[0].presses, Presses(ticks[1..][..k - 1]), ticks[k].presses);
    }
  }

  /** Replaying the presses up to tick `k`, then those of tick `k`, replays those up to
      and including tick `k`. */
  lemma PressesThrough(flags: Flags, ticks: seq<Tick>, k: nat)
    requires k < |ticks|
    ensures Replay(Replay(flags, Presses(ticks[..k])), ticks[k].presses) == Replay(flags, Presses(ticks[..k + 1]))
  {
    ReplayAppend(flags, Presses(ticks[..k]), ticks[k].presses);
    PressesSnoc(ticks, k);
  }

  lemma PressesPrefix(ticks: seq<Tick>, k: nat)
    requires k < |ticks|
    ensures Presses(ticks[..k + 1]) == ticks[0].presses + Presses(ticks[1..][..k])
  {
    assert ticks[..k + 1][0] == ticks[0];
    assert ticks[..k + 1][1..] == ticks[1..][..k];
  }

  /** The events before the loop, in opening order. */
  function Opening(isOak: bool, path: string, virtualPath: string, width: nat, height: nat): (r: seq<Event>)
    ensures |r| == if isOak then 5 else 4
    ensures r[0] == OpenReal(path)
    ensures DeviceSetup in r <==> isOak
    // the setup runs after the real camera opens and before the virtual one does
    ensures isOak ==> r[1] == DeviceSetup && r[2] == OpenVirtual(width, height, Fps, virtualPath)
    ensures r[|r| - 3] == OpenVirtual(width, height, Fps, virtualPath) && r[|r| - 2] == StartHotkeys && r[|r| - 1] == Running
  {
    [OpenReal(path)] + (if isOak then [DeviceSetup] else []) + [OpenVirtual(width, height, Fps, virtualPath), StartHotkeys, Running]
  }

  /** The events after the loop: the `with` blocks unwinding. */
  const Closing: seq<Event> := [StopHotkeys, CloseVirtual, CloseReal]

  /** The whole trace of a session on real camera `path` that reached the loop: the
      opening, with the virtual camera at the capture's size, the loop from the initial
      switches, and the closing. */
  function SessionTrace(isOak: bool, path: string, virtualPath: string, camWidth: nat, camHeight: nat,
                        acquire: Capture.AcquireFn, process: ProcessFn, ticks: seq<Tick>): seq<Event>
  {
    var width := if isOak then MaxWidth else Min(camWidth, MaxWidth);
    var height := if isOak then MaxHeight else Min(camHeight, MaxHeight);
    Opening(isOak, path, virtualPath, width, height)
      + Loop(InitialFlags, ticks, if isOak then Some(acquire) else None, process).0 + Closing
  }

  datatype Resource = RealCamera | VirtualCamera | Listener

  /** The resource an event opens, if any. */
  function Opened(e: Event): seq<Resource>
  {
    match e
    case OpenReal(_) => [RealCamera]
    case OpenVirtual(_, _, _, _) => [VirtualCamera]
    case StartHotkeys => [Listener]
    case _ => []
  }

  /** The resource an event releases, if any. */
  function Closed(e: Event): seq<Resource>
  {
    match e
    case CloseReal => [RealCamera]
    case CloseVirtual => [VirtualCamera]
    case StopHotkeys => [Listener]
    case _ => []
  }

  /** The resources a trace opens, in order. */
  function Opens(t: seq<Event>): seq<Resource>
  {
    if t == [] then [] else Opened(t[0]) + Opens(t[1..])
  }

  /** The resources a trace closes, in order. */
  function Closes(t: seq<Event>): seq<Resource>
  {
    if t == [] then [] else Closed(t[0]) + Closes(t[1..])
  }

  function Reverse<T>(s: seq<T>): (r: seq<T>)
    ensures |r| == |s| && forall i :: 0 <= i < |s| ==> r[i] == s[|s| - 1 - i]
  {
    if s == [] then [] else Reverse(s[1..]) + [s[0]]
  }

  lemma {:induction false} OpensAppend(a: seq<Event>, b: seq<Event>)
    ensures Opens(a + b) == Opens(a) + Opens(b)
    decreases a
  {
    if a == [] {
      assert a + b == b;
    } else {
      var ab := a + b;
      assert ab[0] == a[0] && ab[1..] == a[1..] + b;
      OpensAppend(a[1..], b);
      calc {
        Opens(ab);
        Opened(a[0]) + Opens(a[1..] + b);
        Opened(a[0]) + (Opens(a[1..]) + Opens(b));
        (Opened(a[0]) + Opens(a[1..])) + Opens(b);
      }
    }
  }

  lemma {:induction false} ClosesAppend(a: seq<Event>, b: seq<Event>)
    ensures Closes(a + b) == Closes(a) + Closes(b)
    decreases a
  {
    if a == [] {
      assert a + b == b;
    } else {
      var ab := a + b;
      assert ab[0] == a[0] && ab[1..] == a[1..] + b;
      ClosesAppend(a[1..], b);
      calc {
        Closes(ab);
        Closed(a[0]) + Closes(a[1..] + b);
        Closed(a[0]) + (Closes(a[1..]) + Closes(b));
        (Closed(a[0]) + Closes(a[1..])) + Closes(b);
      }
    }
  }

  /** Frame events open and close nothing. */
  lemma {:induction false} LoopNeutral(t: seq<Event>)
    requires Alternating(t)
    ensures Opens(t) == [] && Closes(t) == [] && DeviceSetup !in t
    decreases |t|
  {
    if t != [] {
      LoopNeutral(t[2..]);
      assert t[1..][1..] == t[2..];
      assert t == [t[0], t[1]] + t[2..];
    }
  }

  /** The opening events open the real camera, the virtual camera and the listener, in
      that order, and close nothing. */
  lemma OpeningResources(isOak: bool, path: string, virtualPath: string, width: nat, height: nat)
    ensures Opens(Opening(isOak, path, virtualPath, width, height)) == [RealCamera, VirtualCamera, Listener]
    ensures Closes(Opening(isOak, path, virtualPath, width, height)) == []
  {
    var prefix := [OpenReal(path)] + (if isOak then [DeviceSetup] else []);
    var rest := [OpenVirtual(width, height, Fps, virtualPath), StartHotkeys, Running];
    assert Opening(isOak, path, virtualPath, width, height) == prefix + rest;
    OpensAppend(prefix, rest);
    ClosesAppend(prefix, rest);
    assert Opens(prefix) == [RealCamera] && Closes(prefix) == [] by {
      if isOak {
        assert prefix[1..] == [DeviceSetup] && prefix[1..][1..] == [];
      } else {
        assert prefix[1..] == [];
      }
    }
    assert Opens(rest) == [VirtualCamera, Listener] && Closes(rest) == [] by {
      var r1, r2 := [StartHotkeys, Running], [Running];
      assert rest[1..] == r1 && r1[1..] == r2 && r2[1..] == [];
      assert Opens(r2) == [] && Closes(r2) == [];
      assert Opens(r1) == [Listener] && Closes(r1) == [];
    }
  }

  /** The closing events close the listener, the virtual camera and the real camera. */
  lemma ClosingResources()
    ensures Opens(Closing) == [] && Closes(Closing) == [Listener, VirtualCamera, RealCamera]
  {
    var c1, c2 := [CloseVirtual, CloseReal], [CloseReal];
    assert Closing[1..] == c1 && c1[1..] == c2 && c2[1..] == [];
    assert Opens(c2) == [] && Closes(c2) == [RealCamera];
    assert Opens(c1) == [] && Closes(c1) == [VirtualCamera, RealCamera];
  }

  /** Whatever the loop did, a session closes exactly what it opened, in reverse order. */
  lemma {:induction false} ReleaseReversed(isOak: bool, path: string, virtualPath: string, width: nat, height: nat, loop: seq<Event>)
    requires Alternating(loop)
    ensures var t := Opening(isOak, path, virtualPath, width, height) + loop + Closing;
      Opens(t) == [RealCamera, VirtualCamera, Listener] && Closes(t) == Reverse(Opens(t))
  {
    var o := Opening(isOak, path, virtualPath, width, height);
    var held: seq<Resource> := [RealCamera, VirtualCamera, Listener];
    var none: seq<Resource> := [];
    var upTo := o + loop;
    assert Opens(upTo) == held && Closes(upTo) == none by {
      OpeningResources(isOak, path, virtualPath, width, height);
      LoopNeutral(loop);
      OpensAppend(o, loop);
      ClosesAppend(o, loop);
      assert held + none == held && none + none == none;
    }
    assert Opens(upTo + Closing) == held && Closes(upTo + Closing) == [Listener, VirtualCamera, RealCamera] by {
      ClosingResources();
      OpensAppend(upTo, Closing);
      ClosesAppend(upTo, Closing);
      assert held + none == held;
      assert none + [Listener, VirtualCamera, RealCamera] == [Listener, VirtualCamera, RealCamera];
    }
    ReverseThree(RealCamera, VirtualCamera, Listener);
  }

  /** The capture of the chosen camera. */
  method GetFrame(cam: Camera, ghost acquisition: Option<Capture.AcquireFn>, raw: Capture.RawFrame) returns (r: Result<Acquired>)
    requires cam.WebcamCam? ==> acquisition.None?
    requires cam.OakCam? ==> cam.oak.acquisition == acquisition && acquisition.Some?
    ensures r == Grab(acquisition, raw)
  {
    match cam
    case WebcamCam(v) => r := v.GetFrame(raw);
    case OakCam(d) => r := d.GetFrame(raw);
  }

  /** The outcome of one tick's read and pipeline under the switches `flags`. */
  function Through(acquisition: Option<Capture.AcquireFn>, raw: Capture.RawFrame, flags: Flags, process: ProcessFn): Result<Frame>
  {
    match Grab(acquisition, raw)
    case Err(e) => Err(e)
    case Ok(acq) => Step(acq, flags, process)
  }

  /** One pass of the `while True` loop: the tick's presses reach the switches, then one
      frame is read and run through the pipeline. */
  method Pass(cam: Camera, ghost acquisition: Option<Capture.AcquireFn>, keys: KeyHandler, process: ProcessFn, tick: Tick)
    returns (r: Result<Frame>)
    requires cam.WebcamCam? ==> acquisition.None?
    requires cam.OakCam? ==> cam.oak.acquisition == acquisition && acquisition.Some?
    modifies keys`fTrig, keys`lTrig, keys`nTrig, keys`bgr2rgbSw, keys`mirrorSw
    ensures keys.State() == Replay(old(keys.State()), tick.presses)
    ensures r == Through(acquisition, tick.raw, keys.State(), process)
  {
    keys.PressAll(tick.presses);
    var got := GetFrame(cam, acquisition, tick.raw);
    if got.Err? {
      return Err(got.error);
    }
    r := Step(got.value, keys.State(), process);
  }

  /** The loop's first tick in terms of `Through`: an error ends the loop there, a frame is
      sent and the loop goes on from the new switches. */
  lemma LoopPass(flags: Flags, ticks: seq<Tick>, acquisition: Option<Capture.AcquireFn>, process: ProcessFn)
    requires ticks != []
    ensures var now := Replay(flags, ticks[0].presses);
      var t := Through(acquisition, ticks[0].raw, now, process);
      var rest := Loop(now, ticks[1..], acquisition, process);
      && (t.Err? ==> Loop(flags, ticks, acquisition, process) == ([], Some(t.error)) && Entered(flags, ticks, acquisition, process) == 1)
      && (t.Ok? ==> Loop(flags, ticks, acquisition, process) == ([Send(t.value), Sleep] + rest.0, rest.1) &&
                    Entered(flags, ticks, acquisition, process) == 1 + Entered(now, ticks[1..], acquisition, process))
  {
    var now := Replay(flags, ticks[0].presses);
    if Grab(acquisition, ticks[0].raw).Err? {
      LoopGrabFails(flags, ticks, acquisition, process);
    } else if Step(Grab(acquisition, ticks[0].raw).value, now, process).Err? {
      LoopStepFails(flags, ticks, acquisition, process);
    } else {
      LoopSends(flags, ticks, acquisition, process);
    }
  }

  /** The `while True` loop over the given ticks. */
  method FrameLoop(cam: Camera, ghost acquisition: Option<Capture.AcquireFn>, keys: KeyHandler, process: ProcessFn, ticks: seq<Tick>)
    returns (events: seq<Event>, error: Option<Error>)
    requires cam.WebcamCam? ==> acquisition.None?
    requires cam.OakCam? ==> cam.oak.acquisition == acquisition && acquisition.Some?
    modifies keys`fTrig, keys`lTrig, keys`nTrig, keys`bgr2rgbSw, keys`mirrorSw
    ensures (events, error) == Loop(old(keys.State()), ticks, acquisition, process)
    // the switches end as the presses of the entered ticks leave them
    ensures keys.State() == Replay(old(keys.State()), Presses(ticks[..Entered(old(keys.State()), ticks, acquisition, process)]))
  {
    events := [];
    error := None;
    var i := 0;
    LoopAtStart(keys.State(), ticks, acquisition, process);
    while i < |ticks|
      invariant LoopAt(old(keys.State()), ticks, acquisition, process, i, events, keys.State())
    {
      ghost var before := keys.State();
      var out := Pass(cam, acquisition, keys, process, ticks[i]);
      if out.Err? {
        LoopAtFails(old(keys.State()), ticks, acquisition, process, i, events, before);
        return events, Some(out.error);
      }
      LoopAtSends(old(keys.State()), ticks, acquisition, process, i, events, before);
      events := events + [Send(out.value), Sleep];
      i := i + 1;
    }
    LoopAtEnd(old(keys.State()), ticks, acquisition, process, i, events, keys.State());
  }

  /** After `i` passes from `flags0` on, with events `events` and switches `now`: the rest
      of the loop runs from `now` over the remaining ticks, and the presses of the first `i`
      ticks have been applied. */
  predicate LoopAt(flags0: Flags, ticks: seq<Tick>, acquisition: Option<Capture.AcquireFn>, process: ProcessFn,
                   i: nat, events: seq<Event>, now: Flags)
  {
    && i <= |ticks|
    && now == Replay(flags0, Presses(ticks[..i]))
    && Loop(flags0, ticks, acquisition, process).0 == events + Loop(now, ticks[i..], acquisition, process).0
    && Loop(flags0, ticks, acquisition, process).1 == Loop(now, ticks[i..], acquisition, process).1
    && Entered(flags0, ticks, acquisition, process) == i + Entered(now, ticks[i..], acquisition, process)
  }

  lemma LoopAtStart(flags0: Flags, ticks: seq<Tick>, acquisition: Option<Capture.AcquireFn>, process: ProcessFn)
    ensures LoopAt(flags0, ticks, acquisition, process, 0, [], flags0)
  {
    assert ticks[0..] == ticks && ticks[..0] == [];
    assert [] + Loop(flags0, ticks, acquisition, process).0 == Loop(flags0, ticks, acquisition, process).0;
  }

  /** A pass whose read or pipeline fails ends the loop with the events so far. */
  lemma LoopAtFails(flags0: Flags, ticks: seq<Tick>, acquisition: Option<Capture.AcquireFn>, process: ProcessFn,
                    i: nat, events: seq<Event>, now: Flags)
    requires LoopAt(flags0, ticks, acquisition, process, i, events, now) && i < |ticks|
    requires Through(acquisition, ticks[i].raw, Replay(now, ticks[i].presses), process).Err?
    ensures Loop(flags0, ticks, acquisition, process) ==
      (events, Some(Through(acquisition, ticks[i].raw, Replay(now, ticks[i].presses), process).error))
    ensures Replay(now, ticks[i].presses) == Replay(flags0, Presses(ticks[..Entered(flags0, ticks, acquisition, process)]))
  {
    var here := ticks[i..];
    assert here[0] == ticks[i];
    LoopPass(now, here, acquisition, process);
    PressesThrough(flags0, ticks, i);
    assert events + [] == events;
  }

  /** A pass that sends its frame keeps the loop's bookkeeping one tick further on. */
  lemma LoopAtSends(flags0: Flags, ticks: seq<Tick>, acquisition: Option<Capture.AcquireFn>, process: ProcessFn,
                    i: nat, events: seq<Event>, now: Flags)
    requires LoopAt(flags0, ticks, acquisition, process, i, events, now) && i < |ticks|
    requires Through(acquisition, ticks[i].raw, Replay(now, ticks[i].presses), process).Ok?
    ensures LoopAt(flags0, ticks, acquisition, process, i + 1,
                   events + [Send(Through(acquisition, ticks[i].raw, Replay(now, ticks[i].presses), process).value), Sleep],
                   Replay(now, ticks[i].presses))
  {
    var here := ticks[i..];
    assert here[0] == ticks[i] && here[1..] == ticks[i + 1..];
    LoopPass(now, here, acquisition, process);
    PressesThrough(flags0, ticks, i);
    var t := Through(acquisition, ticks[i].raw, Replay(now, ticks[i].presses), process);
    Associative(events, [Send(t.value), Sleep], Loop(Replay(now, ticks[i].presses), ticks[i + 1..], acquisition, process).0);
  }

  /** Once every tick has sent, the loop ends without error with all presses applied. */
  lemma LoopAtEnd(flags0: Flags, ticks: seq<Tick>, acquisition: Option<Capture.AcquireFn>, process: ProcessFn,
                  i: nat, events: seq<Event>, now: Flags)
    requires LoopAt(flags0, ticks, acquisition, process, i, events, now) && i >= |ticks|
    ensures Loop(flags0, ticks, acquisition, process) == (events, None)
    ensures now == Replay(flags0, Presses(ticks[..Entered(flags0, ticks, acquisition, process)]))
  {
    assert ticks[i..] == [];
    assert events + [] == events;
  }

  /** A tick whose read fails ends the loop with that error and nothing sent. */
  lemma LoopGrabFails(flags: Flags, ticks: seq<Tick>, acquisition: Option<Capture.AcquireFn>, process: ProcessFn)
    requires ticks != [] && Grab(acquisition, ticks[0].raw).Err?
    ensures Loop(flags, ticks, acquisition, process) == ([], Some(Grab(acquisition, ticks[0].raw).error))
    ensures Entered(flags, ticks, acquisition, process) == 1
  {
  }

  /** A tick whose processing fails ends the loop with that error and nothing sent. */
  lemma LoopStepFails(flags: Flags, ticks: seq<Tick>, acquisition: Option<Capture.AcquireFn>, process: ProcessFn)
    requires ticks != [] && Grab(acquisition, ticks[0].raw).Ok?
    requires Step(Grab(acquisition, ticks[0].raw).value, Replay(flags, ticks[0].presses), process).Err?
    ensures Loop(flags, ticks, acquisition, process) ==
      ([], Some(Step(Grab(acquisition, ticks[0].raw).value, Replay(flags, ticks[0].presses), process).error))
    ensures Entered(flags, ticks, acquisition, process) == 1
  {
  }

  /** A tick that reads and processes its frame sends it, sleeps and goes on. */
  lemma LoopSends(flags: Flags, ticks: seq<Tick>, acquisition: Option<Capture.AcquireFn>, process: ProcessFn)
    requires ticks != [] && Grab(acquisition, ticks[0].raw).Ok?
    requires Step(Grab(acquisition, ticks[0].raw).value, Replay(flags, ticks[0].presses), process).Ok?
    ensures var now := Replay(flags, ticks[0].presses);
      var rest := Loop(now, ticks[1..], acquisition, process);
      Loop(flags, ticks, acquisition, process) ==
        ([Send(Step(Grab(acquisition, ticks[0].raw).value, now, process).value), Sleep] + rest.0, rest.1)
    ensures Entered(flags, ticks, acquisition, process) == 1 + Entered(Replay(flags, ticks[0].presses), ticks[1..], acquisition, process)
  {
  }

  /** The whole session on a device handler whose `init_device` chose a real camera: the
      capture is opened (LookupError before anything else when no real path is set), an
      OAK device is set up with the plugin's acquisition, the virtual camera opens with the
      capture's size, the loop runs from the initial switch values, and everything opened is
      closed again. */
  method Run(handler: Device.DeviceHandler, virtualPath: string, camWidth: nat, camHeight: nat,
             acquire: Capture.AcquireFn, process: ProcessFn, ticks: seq<Tick>)
    returns (trace: seq<Event>, outcome: Outcome)
    requires handler.kind == Webcam || handler.kind == Depthai
    modifies handler`deviceInfo
    ensures !Truthy(handler.realPath) ==> trace == [] && outcome == Raised(LookupError)
    ensures Truthy(handler.realPath) ==>
      var isOak := handler.kind == Depthai;
      var width := if isOak then MaxWidth else Frames.Min(camWidth, MaxWidth);
      var height := if isOak then MaxHeight else Frames.Min(camHeight, MaxHeight);
      var loop := Loop(InitialFlags, ticks, if isOak then Some(acquire) else None, process);
      && trace == Opening(isOak, handler.realPath.value, virtualPath, width, height) + loop.0 + Closing
      && (outcome == Interrupted <==> loop.1.None?)
      && (loop.1.Some? ==> outcome == Raised(loop.1.value))
    ensures Truthy(handler.realPath) ==>
      trace == SessionTrace(handler.kind == Depthai, handler.realPath.value, virtualPath, camWidth, camHeight, acquire, process, ticks)
    // an OAK device records the chosen mxid as its device info; nothing else changes it
    ensures handler.deviceInfo == if handler.kind == Depthai && Truthy(handler.realPath) then handler.realPath else old(handler.deviceInfo)
  {
    var cam: Camera;
    var width: nat, height: nat;
    var setup: seq<Event> := [];
    ghost var acquisition: Option<Capture.AcquireFn> := None;
    if handler.kind == Webcam {
      var got := handler.GetWebcamCapture(camWidth, camHeight);
      if got.Err? {
        return [], Raised(got.error);
      }
      cam := WebcamCam(got.value);
      width, height := got.value.width, got.value.height;
    } else {
      var got := handler.GetDepthaiCapture();
      if got.Err? {
        return [], Raised(got.error);
      }
      got.value.Setup(acquire);
      setup := [DeviceSetup];
      acquisition := Some(acquire);
      cam := OakCam(got.value);
      width, height := got.value.width, got.value.height;
    }
    var keys := new KeyHandler();
    keys.Start();
    var events, error := FrameLoop(cam, acquisition, keys, process, ticks);
    keys.Stop();
    match cam {
      case WebcamCam(v) => v.Release();
      case OakCam(d) => d.Close();
    }
    trace := [OpenReal(handler.realPath.value)] + setup + [OpenVirtual(width, height, Fps, virtualPath), StartHotkeys, Running]
      + events + Closing;
    outcome := if error.None? then Interrupted else Raised(error.value);
  }

  /** The device setup happens in a session exactly when the real camera is an OAK device. */
  lemma SetupOnlyForOak(isOak: bool, path: string, virtualPath: string, width: nat, height: nat, loop: seq<Event>)
    requires Alternating(loop)
    ensures DeviceSetup in Opening(isOak, path, virtualPath, width, height) + loop + Closing <==> isOak
  {
    LoopNeutral(loop);
    assert DeviceSetup !in Closing;
  }

  /** What every session promises about its trace, for either family: the device setup
      happens exactly for an OAK device, and the three resources are opened in order and
      closed in reverse. */
  lemma RunShape(isOak: bool, path: string, virtualPath: string, camWidth: nat, camHeight: nat,
                 acquire: Capture.AcquireFn, process: ProcessFn, ticks: seq<Tick>)
    ensures var width := if isOak then MaxWidth else Min(camWidth, MaxWidth);
      var height := if isOak then MaxHeight else Min(camHeight, MaxHeight);
      var loop := Loop(InitialFlags, ticks, if isOak then Some(acquire) else None, process).0;
      var t := Opening(isOak, path, virtualPath, width, height) + loop + Closing;
      && (DeviceSetup in t <==> isOak)
      && Opens(t) == [RealCamera, VirtualCamera, Listener]
      && Closes(t) == Reverse(Opens(t))
  {
    var width := if isOak then MaxWidth else Min(camWidth, MaxWidth);
    var height := if isOak then MaxHeight else Min(camHeight, MaxHeight);
    var loop := Loop(InitialFlags, ticks, if isOak then Some(acquire) else None, process).0;
    SetupOnlyForOak(isOak, path, virtualPath, width, height, loop);
    ReleaseReversed(isOak, path, virtualPath, width, height, loop);
  }
}
