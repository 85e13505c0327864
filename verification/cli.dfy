/** main.py: the command-line entry point of the earlier revision. It validates the extra
    arguments, chooses a plugin from the `--depthai` and `--roboflow` flags, builds and
    initialises the matching device handler, checks that the plugin's family agrees with the
    flags, and runs the capture session. */
module Cli {
  import opened Common
  import opened Hotkeys
  import Arguments
  import Capture
  import Device
  import Session

  /** The plugin `main` builds, with the extra arguments it is given. The plugins'
      own set-up (model download, remote inference) is not part of this model. */
  datatype PluginChoice =
    | Yolov5
    | Roboflow(apiKey: Option<string>, project: Option<string>, version: Option<string>)
    | FaceDetection(name: Option<string>)

  /** The `type` each of these plugins sets: Yolov5 is a depthai plugin, the other two
      webcam plugins. */
  function PluginKind(p: PluginChoice): Option<string>
  {
    match p
    case Yolov5 => Some(Depthai)
    case Roboflow(_, _, _) => Some(Webcam)
    case FaceDetection(_) => Some(Webcam)
  }

  /** The plugin of the flags: `--depthai` wins over `--roboflow`; the Roboflow plugin reads
      its three options in order and the face plugin reads `--name`, any of which may
      raise IndexError. */
  function ChoosePlugin(args: seq<string>, depthai: bool, roboflow: bool): (r: Result<PluginChoice>)
    ensures depthai ==> r == Ok(Yolov5)
    ensures !depthai && roboflow && r.Ok? ==>
      && Arguments.Get("--roboflow-api-key", args).Ok? && Arguments.Get("--project-name", args).Ok?
      && Arguments.Get("--version", args).Ok?
      && r.value == Roboflow(Arguments.Get("--roboflow-api-key", args).value,
                          Arguments.Get("--project-name", args).value, Arguments.Get("--version", args).value)
    ensures !depthai && roboflow ==> (r.Err? <==>
      Arguments.Get("--roboflow-api-key", args).Err? || Arguments.Get("--project-name", args).Err? || Arguments.Get("--version", args).Err?)
    ensures !depthai && !roboflow ==> (r.Err? <==> Arguments.Get("--name", args).Err?)
    ensures !depthai && !roboflow && r.Ok? ==>
      Arguments.Get("--name", args).Ok? && r.value == FaceDetection(Arguments.Get("--name", args).value)
    ensures r.Err? ==> r.error == IndexError
  {
    if depthai then Ok(Yolov5)
    else if roboflow then
      match Arguments.Get("--roboflow-api-key", args)
      case Err(e) => Err(e)
      case Ok(key) =>
        match Arguments.Get("--project-name", args)
        case Err(e) => Err(e)
        case Ok(project) =>
          match Arguments.Get("--version", args)
          case Err(e) => Err(e)
          case Ok(version) => Ok(Roboflow(key, project, version))
    else
      match Arguments.Get("--name", args)
      case Err(e) => Err(e)
      case Ok(name) => Ok(FaceDetection(name))
  }

  /** The configuration checks before the camera starts: a plugin without a type, and a
      plugin whose family disagrees with the `--depthai` flag. */
  function Validate(depthai: bool, kind: Option<string>): (r: Option<Error>)
    ensures kind.None? ==> r == Some(NotImplementedError)
    ensures kind.Some? ==> (r.Some? <==> (depthai && kind.value == Webcam) || (!depthai && kind.value == Depthai))
    ensures r.Some? && kind.Some? ==> r.value == InvalidArgumentError
  {
    if kind.None? then Some(NotImplementedError)
    else if depthai && kind.value == Webcam then Some(InvalidArgumentError)
    else if !depthai && kind.value == Depthai then Some(InvalidArgumentError)
    else None
  }

  /** The checks never fire for the plugins `main` itself builds. */
  lemma ChosenPluginsPassValidation(args: seq<string>, depthai: bool, roboflow: bool)
    requires ChoosePlugin(args, depthai, roboflow).Ok?
    ensures Validate(depthai, PluginKind(ChoosePlugin(args, depthai, roboflow).value)).None?
  {
    assert Depthai != Webcam by {
      assert Depthai[0] != Webcam[0];
    }
  }

  /** How `main` ends. */
  datatype Outcome =
    | Ran(trace: seq<Session.Event>, ended: Session.Outcome)
    | Exited(console: seq<Device.Console>)
    | Failed(error: Error, console: seq<Device.Console>)

  /** The handler `main` builds and the virtual camera its `init_device` chose, or how
      `main` ends before a session. */
  datatype Opened =
    | Chosen(handler: Device.DeviceHandler, virtualPath: string)
    | Stopped(outcome: Outcome)

  /** The device part of `main`: the handler of the `--depthai` flag's family, then
      `init_device` on the given path. */
  method OpenDevice(depthai: bool, devicePath: Option<string>,
                    oaks: seq<Device.OakInfo>, nodes: seq<Device.V4l2Node>, existing: set<string>)
    returns (r: Opened)
    ensures var kind := if depthai then Depthai else Webcam;
      r.Chosen? <==> Device.Building(kind, oaks, nodes, existing).Ok? &&
                     Device.HasVirtual(Device.Building(kind, oaks, nodes, existing).value.2, devicePath)
    ensures var kind := if depthai then Depthai else Webcam;
      Device.Building(kind, oaks, nodes, existing).Err? ==> r == Stopped(Failed(Device.Building(kind, oaks, nodes, existing).error, []))
    ensures r.Chosen? ==> fresh(r.handler) && r.handler.kind == (if depthai then Depthai else Webcam)
    ensures r.Chosen? ==> Truthy(devicePath) && r.handler.realPath == devicePath
    ensures r.Chosen? ==> exists e :: Device.LastMapped(r.handler.mapping, devicePath.value, e) &&
                                      r.virtualPath == r.handler.mapping[e].pathVirtual
    ensures r.Stopped? ==> !r.outcome.Ran?
    // a built handler: the device part ends as its `init_device` does
    ensures var kind := if depthai then Depthai else Webcam;
      Device.Building(kind, oaks, nodes, existing).Ok? ==>
        var b := Device.Building(kind, oaks, nodes, existing).value;
        var init := Device.InitResult(kind, b.2, b.0, devicePath);
        && !init.Raised?
        && (init.UseVirtual? ==> r.Chosen? && r.virtualPath == init.path)
        && (init.Exit? ==> r == Stopped(Exited(init.console)))
  {
    var made, init := Device.DeviceHandler.Open(if depthai then Depthai else Webcam, oaks, nodes, existing, devicePath);
    if made.Err? {
      return Stopped(Failed(made.error, []));
    }
    var handler := made.value;
    if init.Exit? {
      return Stopped(Exited(init.console));
    }
    r := Chosen(handler, init.path);
  }

  /** The tail of `main`: the session on the handler's chosen real camera and the virtual
      camera `init_device` returned. */
  method RunSession(depthai: bool, handler: Device.DeviceHandler, virtualPath: string,
                    camWidth: nat, camHeight: nat, acquire: Capture.AcquireFn, process: Session.ProcessFn, ticks: seq<Session.Tick>)
    returns (r: Outcome)
    requires handler.kind == (if depthai then Depthai else Webcam) && Truthy(handler.realPath)
    modifies handler`deviceInfo
    ensures r.Ran? && r.trace == Session.SessionTrace(depthai, handler.realPath.value, virtualPath, camWidth, camHeight, acquire, process, ticks)
    ensures |r.trace| > 0 && r.trace[0] == Session.OpenReal(handler.realPath.value)
    ensures Session.DeviceSetup in r.trace <==> depthai
    ensures Session.Opens(r.trace) == [Session.RealCamera, Session.VirtualCamera, Session.Listener]
    ensures Session.Closes(r.trace) == Session.Reverse(Session.Opens(r.trace))
    ensures var loop := Session.Loop(InitialFlags, ticks, if depthai then Some(acquire) else None, process);
      (r.ended == Session.Interrupted <==> loop.1.None?) && (loop.1.Some? ==> r.ended == Session.Raised(loop.1.value))
  {
    var trace, ended := Session.Run(handler, virtualPath, camWidth, camHeight, acquire, process, ticks);
    Session.RunShape(depthai, handler.realPath.value, virtualPath, camWidth, camHeight, acquire, process, ticks);
    r := Ran(trace, ended);
  }

  /** The part of `main` after `init_device`: the configuration checks of plugin family
      `pluginKind`, then the session. */
  method ValidateAndRun(depthai: bool, pluginKind: Option<string>, handler: Device.DeviceHandler, virtualPath: string,
                        camWidth: nat, camHeight: nat, acquire: Capture.AcquireFn, process: Session.ProcessFn, ticks: seq<Session.Tick>)
    returns (r: Outcome)
    requires handler.kind == (if depthai then Depthai else Webcam) && Truthy(handler.realPath)
    modifies handler`deviceInfo
    ensures Validate(depthai, pluginKind).Some? ==> r == Failed(Validate(depthai, pluginKind).value, [])
    ensures Validate(depthai, pluginKind).None? ==>
      r.Ran? && r.trace == Session.SessionTrace(depthai, handler.realPath.value, virtualPath, camWidth, camHeight, acquire, process, ticks)
    ensures r.Ran? ==> |r.trace| > 0 && r.trace[0] == Session.OpenReal(handler.realPath.value)
    ensures r.Ran? ==> (Session.DeviceSetup in r.trace <==> depthai)
    ensures r.Ran? ==> Session.Opens(r.trace) == [Session.RealCamera, Session.VirtualCamera, Session.Listener]
    ensures r.Ran? ==> Session.Closes(r.trace) == Session.Reverse(Session.Opens(r.trace))
    ensures r.Ran? ==>
      var loop := Session.Loop(InitialFlags, ticks, if depthai then Some(acquire) else None, process);
      (r.ended == Session.Interrupted <==> loop.1.None?) && (loop.1.Some? ==> r.ended == Session.Raised(loop.1.value))
  {
    var wrong := Validate(depthai, pluginKind);
    if wrong.Some? {
      return Failed(wrong.value, []);
    }
    r := RunSession(depthai, handler, virtualPath, camWidth, camHeight, acquire, process, ticks);
  }

  /** What `main` does once its plugin, of family `pluginKind`, is built: the handler and
      its `init_device`, the configuration checks, then the session. */
  method Proceed(depthai: bool, pluginKind: Option<string>, devicePath: Option<string>,
                 oaks: seq<Device.OakInfo>, nodes: seq<Device.V4l2Node>, existing: set<string>,
                 camWidth: nat, camHeight: nat, acquire: Capture.AcquireFn, process: Session.ProcessFn, ticks: seq<Session.Tick>)
    returns (r: Outcome)
    ensures var kind := if depthai then Depthai else Webcam;
      Device.Building(kind, oaks, nodes, existing).Err? ==> r == Failed(Device.Building(kind, oaks, nodes, existing).error, [])
    ensures var kind := if depthai then Depthai else Webcam;
      Device.Building(kind, oaks, nodes, existing).Ok? ==>
        var b := Device.Building(kind, oaks, nodes, existing).value;
        var init := Device.InitResult(kind, b.2, b.0, devicePath);
        && !init.Raised?
        && (init.Exit? ==> r == Exited(init.console))
        && (init.UseVirtual? && Validate(depthai, pluginKind).Some? ==> r == Failed(Validate(depthai, pluginKind).value, []))
        && (init.UseVirtual? && Validate(depthai, pluginKind).None? ==>
              r.Ran? && r.trace == Session.SessionTrace(depthai, devicePath.value, init.path, camWidth, camHeight, acquire, process, ticks))
    ensures var kind := if depthai then Depthai else Webcam;
      r.Ran? <==> Device.Building(kind, oaks, nodes, existing).Ok? &&
                  Device.HasVirtual(Device.Building(kind, oaks, nodes, existing).value.2, devicePath) &&
                  Validate(depthai, pluginKind).None?
    ensures r.Ran? ==> Truthy(devicePath) && |r.trace| > 0 && r.trace[0] == Session.OpenReal(devicePath.value)
    ensures r.Ran? ==> (Session.DeviceSetup in r.trace <==> depthai)
    ensures r.Ran? ==> Session.Opens(r.trace) == [Session.RealCamera, Session.VirtualCamera, Session.Listener]
    ensures r.Ran? ==> Session.Closes(r.trace) == Session.Reverse(Session.Opens(r.trace))
    ensures r.Ran? ==>
      var loop := Session.Loop(InitialFlags, ticks, if depthai then Some(acquire) else None, process);
      (r.ended == Session.Interrupted <==> loop.1.None?) && (loop.1.Some? ==> r.ended == Session.Raised(loop.1.value))
  {
    var device := OpenDevice(depthai, devicePath, oaks, nodes, existing);
    if device.Stopped? {
      return device.outcome;
    }
    r := ValidateAndRun(depthai, pluginKind, device.handler, device.virtualPath, camWidth, camHeight, acquire, process, ticks);
  }

  /** `main(ctx, device_path, depthai, roboflow)`. The device enumeration, the camera size
      and the plugin's acquisition and processing are inputs; the endless loop runs over the
      given ticks. */
  method Launch(args: seq<string>, devicePath: Option<string>, depthai: bool, roboflow: bool,
                oaks: seq<Device.OakInfo>, nodes: seq<Device.V4l2Node>, existing: set<string>,
                camWidth: nat, camHeight: nat, acquire: Capture.AcquireFn, process: Session.ProcessFn, ticks: seq<Session.Tick>)
    returns (r: Outcome)
    // the extra arguments are checked before any plugin or device is created
    ensures Arguments.Check(args).Some? ==> r == Failed(InvalidArgumentError, [])
    ensures Arguments.Check(args).None? && ChoosePlugin(args, depthai, roboflow).Err? ==> r == Failed(IndexError, [])
    // a session runs exactly when the arguments are good, the handler is built and the path
    // has a virtual counterpart
    ensures r.Ran? <==>
      && Arguments.Check(args).None? && ChoosePlugin(args, depthai, roboflow).Ok?
      && Device.Building(if depthai then Depthai else Webcam, oaks, nodes, existing).Ok?
      && Device.HasVirtual(Device.Building(if depthai then Depthai else Webcam, oaks, nodes, existing).value.2, devicePath)
    // with good arguments, `main` ends as building the handler and `init_device` do
    ensures var kind := if depthai then Depthai else Webcam;
      Arguments.Check(args).None? && ChoosePlugin(args, depthai, roboflow).Ok? ==>
        && (Device.Building(kind, oaks, nodes, existing).Err? ==> r == Failed(Device.Building(kind, oaks, nodes, existing).error, []))
        && (Device.Building(kind, oaks, nodes, existing).Ok? ==>
              var b := Device.Building(kind, oaks, nodes, existing).value;
              var init := Device.InitResult(kind, b.2, b.0, devicePath);
              && !init.Raised?
              && (init.Exit? ==> r == Exited(init.console))
              && (init.UseVirtual? ==>
                    r.Ran? && r.trace == Session.SessionTrace(depthai, devicePath.value, init.path, camWidth, camHeight, acquire, process, ticks)))
    ensures r.Ran? ==> Truthy(devicePath) && |r.trace| > 0 && r.trace[0] == Session.OpenReal(devicePath.value)
    ensures r.Ran? ==> (Session.DeviceSetup in r.trace <==> depthai)
    ensures r.Ran? ==> Session.Opens(r.trace) == [Session.RealCamera, Session.VirtualCamera, Session.Listener]
    ensures r.Ran? ==> Session.Closes(r.trace) == Session.Reverse(Session.Opens(r.trace))
    ensures r.Ran? ==>
      var loop := Session.Loop(InitialFlags, ticks, if depthai then Some(acquire) else None, process);
      (r.ended == Session.Interrupted <==> loop.1.None?) && (loop.1.Some? ==> r.ended == Session.Raised(loop.1.value))
  {
    var bad := Arguments.Check(args);
    if bad.Some? {
      return Failed(bad.value, []);
    }
    var choice := ChoosePlugin(args, depthai, roboflow);
    if choice.Err? {
      return Failed(choice.error, []);
    }
    // the configuration checks never raise for the plugins chosen above
    ChosenPluginsPassValidation(args, depthai, roboflow);
    r := Proceed(depthai, PluginKind(choice.value), devicePath, oaks, nodes, existing, camWidth, camHeight, acquire, process, ticks);
  }
}
