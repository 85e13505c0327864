/** runner.py: `Runner` normalises the device path, builds the device handler the plugin's
    family calls for, asks it for the virtual camera to feed, and runs the session. */
module Runner {
  import opened Common
  import opened Hotkeys
  import Capture
  import Frames
  import Device
  import Session

  /** The `device_path` a runner receives: None, a string, or an enum member whose `value`
      is the path (or None). */
  datatype PathArg = Absent | Text(text: string) | Member(value: Option<string>)

  /** The path normalisation as written: `type(device_path) is not None` holds for every
      value, so everything that is not a `str` takes `.value`, and None has no `.value`. */
  function NormalisePath(p: PathArg): (r: Result<Option<string>>)
    ensures r.Err? <==> p.Absent?
    ensures r.Err? ==> r.error == AttributeError
    ensures p.Text? ==> r == Ok(Some(p.text))
    ensures p.Member? ==> r == Ok(p.value)
  {
    match p
    case Text(s) => Ok(Some(s))
    case Absent => Err(AttributeError)
    case Member(v) => Ok(v)
  }

  /** The evidently intended normalisation, `device_path is not None`: None stays None. */
  function NormalisePathIntended(p: PathArg): (r: Option<string>)
    ensures p.Absent? ==> r == None
    ensures p.Text? ==> r == Some(p.text)
    ensures p.Member? ==> r == p.value
  {
    match p
    case Text(s) => Some(s)
    case Absent => None
    case Member(v) => v
  }

  /** The two normalisations agree except on None, where only the written one raises: a
      runner built with its default `device_path=None` fails before reaching the device. */
  lemma NormaliseNoneRaises(p: PathArg)
    ensures NormalisePath(p).Ok? ==> NormalisePath(p).value == NormalisePathIntended(p)
    ensures NormalisePath(Absent) == Err(AttributeError) && NormalisePathIntended(Absent) == None
  {
  }

  /** How constructing a runner ends. */
  datatype Start =
    | Ready(runner: Runner)
    | Exited(console: seq<Device.Console>)
    | Failed(error: Error, console: seq<Device.Console>)

  class Runner {
    const pluginKind: string
    const handler: Device.DeviceHandler
    const virtualPath: string

    /** The handler is of the plugin's family and has chosen a real camera. */
    predicate Valid()
      reads this, handler
    {
      handler.kind == pluginKind && (pluginKind == Webcam || pluginKind == Depthai) && Truthy(handler.realPath)
    }

    constructor Of(pluginKind: string, handler: Device.DeviceHandler, virtualPath: string)
      ensures this.pluginKind == pluginKind && this.handler == handler && this.virtualPath == virtualPath
    {
      this.pluginKind := pluginKind;
      this.handler := handler;
      this.virtualPath := virtualPath;
    }

    /** `Runner.__init__`: normalise the path, dispatch on the plugin's type (ValueError for
        any type but the two families), build that family's handler and initialise it. */
    static method Create(pluginKind: Option<string>, path: PathArg,
                         oaks: seq<Device.OakInfo>, nodes: seq<Device.V4l2Node>, existing: set<string>)
      returns (r: Start)
      ensures path.Absent? ==> r == Failed(AttributeError, [])
      ensures !path.Absent? && pluginKind != Some(Webcam) && pluginKind != Some(Depthai) ==> r == Failed(ValueError, [])
      // a handler that cannot be built ends construction with its error
      ensures (!path.Absent? && (pluginKind == Some(Webcam) || pluginKind == Some(Depthai)) &&
               Device.Building(pluginKind.value, oaks, nodes, existing).Err?) ==>
        r == Failed(Device.Building(pluginKind.value, oaks, nodes, existing).error, [])
      // ready exactly when the handler is built and the path has a virtual counterpart
      ensures r.Ready? <==>
        && !path.Absent? && (pluginKind == Some(Webcam) || pluginKind == Some(Depthai))
        && Device.Building(pluginKind.value, oaks, nodes, existing).Ok?
        && Device.HasVirtual(Device.Building(pluginKind.value, oaks, nodes, existing).value.2, NormalisePath(path).value)
      ensures r.Ready? ==> fresh(r.runner) && r.runner.Valid() && Some(r.runner.pluginKind) == pluginKind
      // the real camera is the one asked for, and the virtual camera is its last mapped counterpart
      ensures r.Ready? ==> r.runner.handler.realPath == NormalisePath(path).value
      ensures r.Ready? ==> exists e ::
        (Device.LastMapped(r.runner.handler.mapping, r.runner.handler.realPath.value, e) &&
         r.runner.virtualPath == r.runner.handler.mapping[e].pathVirtual)
      // a built handler: construction ends as its `init_device` does
      ensures (!path.Absent? && (pluginKind == Some(Webcam) || pluginKind == Some(Depthai)) &&
               Device.Building(pluginKind.value, oaks, nodes, existing).Ok?) ==>
        var b := Device.Building(pluginKind.value, oaks, nodes, existing).value;
        var init := Device.InitResult(pluginKind.value, b.2, b.0, NormalisePath(path).value);
        && !init.Raised?
        && (init.UseVirtual? ==> r.Ready? && r.runner.virtualPath == init.path)
        && (init.Exit? ==> r == Exited(init.console))
    {
      var normal := NormalisePath(path);
      if normal.Err? {
        return Failed(normal.error, []);
      }
      var devicePath := normal.value;
      if pluginKind != Some(Depthai) && pluginKind != Some(Webcam) {
        return Failed(ValueError, []);
      }
      var made, init := Device.DeviceHandler.Open(pluginKind.value, oaks, nodes, existing, devicePath);
      if made.Err? {
        return Failed(made.error, []);
      }
      var handler := made.value;
      if init.Exit? {
        return Exited(init.console);
      }
      var runner := new Runner.Of(pluginKind.value, handler, init.path);
      r := Ready(runner);
    }

    /** `Runner.run`: the session on the chosen cameras. It cannot fail for want of a real
        path, sets an OAK device up exactly when the plugin is a depthai plugin, and releases
        what it opened in reverse order. */
    method Run(camWidth: nat, camHeight: nat, acquire: Capture.AcquireFn, process: Session.ProcessFn, ticks: seq<Session.Tick>)
      returns (trace: seq<Session.Event>, outcome: Session.Outcome)
      requires Valid()
      modifies handler`deviceInfo
      ensures Valid()
      ensures |trace| > 0 && trace[0] == Session.OpenReal(handler.realPath.value)
      ensures Session.DeviceSetup in trace <==> pluginKind == Depthai
      ensures Session.Opens(trace) == [Session.RealCamera, Session.VirtualCamera, Session.Listener]
      ensures Session.Closes(trace) == Session.Reverse(Session.Opens(trace))
      ensures var loop := Session.Loop(InitialFlags, ticks, if pluginKind == Depthai then Some(acquire) else None, process);
        (outcome == Session.Interrupted <==> loop.1.None?) && (loop.1.Some? ==> outcome == Session.Raised(loop.1.value))
      ensures trace == Session.SessionTrace(pluginKind == Depthai, handler.realPath.value, virtualPath, camWidth, camHeight, acquire, process, ticks)
      // the OAK device records the chosen mxid as its device info
      ensures handler.deviceInfo == if pluginKind == Depthai then handler.realPath else old(handler.deviceInfo)
    {
      trace, outcome := Session.Run(handler, virtualPath, camWidth, camHeight, acquire, process, ticks);
      Session.RunShape(handler.kind == Depthai, handler.realPath.value, virtualPath, camWidth, camHeight, acquire, process, ticks);
    }
  }
}
