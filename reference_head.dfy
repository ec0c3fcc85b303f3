/** The head motion coordinator: homing, and moving a head mountable with the
    soft-limit check in front of the driver. The motion driver and the machine's
    activity listeners are recorded as events; what the driver answers is a
    parameter of each call. */
module ReferenceHeads {
  import opened Locations
  import opened SoftLimits

  datatype Option<T> = None | Some(value: T)

  /** A nozzle, camera or actuator mounted on the head, with its fixed head offsets. */
  datatype Mountable = Mountable(name: string, headOffsets: Location)

  /** What the head asks of its collaborators, in the order it asks. */
  datatype Event =
    | DriverHome(head: string)
    | DriverMoveTo(hm: Mountable, location: Location, speed: real)
    | HeadActivity(head: string)

  /** The answer of the motion driver to one command. */
  datatype DriverReply = Completed | Fault(message: string)

  datatype HeadError =
    | OutOfSoftLimits(hm: string, location: Location, head: string)
    | NoDefaultCamera(head: string)
    | MachineNotLoaded
    | DriverError(message: string)

  datatype Status = Done | Failed(error: HeadError)

  /** The outcome of one call on the head, and the events it caused. */
  datatype Step = Step(status: Status, events: seq<Event>)

  /** The configuration the head reads while it moves: its name, the soft-limit
      policy (the enable flag and the min/max corners, in the default camera's
      frame) and the default camera, if the head has one. */
  datatype Config = Config(
    name: string,
    softLimitsEnabled: bool,
    minLocation: Location,
    maxLocation: Location,
    defaultCamera: Option<Mountable>)

  /** The soft-limit check of moveTo: Done when the move may go to the driver. */
  function CheckSoftLimits(c: Config, hm: Mountable, location: Location): (r: Status)
    ensures !c.softLimitsEnabled ==> r == Done
    ensures c.softLimitsEnabled && c.defaultCamera.None? ==> r == Failed(NoDefaultCamera(c.name))
    ensures c.softLimitsEnabled && c.defaultCamera.Some? ==>
      (r == Done <==> InBox(CameraLocation(location, hm.headOffsets, c.defaultCamera.value.headOffsets),
                            c.minLocation, c.maxLocation))
    ensures (c.softLimitsEnabled && c.defaultCamera.Some? &&
             !InBox(CameraLocation(location, hm.headOffsets, c.defaultCamera.value.headOffsets),
                    c.minLocation, c.maxLocation)) ==>
      r == Failed(OutOfSoftLimits(hm.name, location, c.name))
  {
    if !c.softLimitsEnabled then Done
    else if c.defaultCamera.None? then Failed(NoDefaultCamera(c.name))
    else
      var cameraLocation := CameraLocation(location, hm.headOffsets, c.defaultCamera.value.headOffsets);
      if OutsideSoftLimits(cameraLocation, c.minLocation, c.maxLocation) then
        Failed(OutOfSoftLimits(hm.name, location, c.name))
      else
        Done
  }

  /** One moveTo(hm, location, speed) on a head configured as `c`, whose machine
      is or is not loaded yet, when the driver answers `reply`. */
  function MoveToStep(c: Config, machineLoaded: bool, hm: Mountable, location: Location, speed: real,
                      reply: DriverReply): (s: Step)
    // it succeeds exactly when the check passes, the machine is there and the driver completes
    ensures s.status == Done <==> CheckSoftLimits(c, hm, location) == Done && machineLoaded && reply == Completed
    // the driver is reached exactly when the check passes and the machine is there
    ensures s.events != [] <==> CheckSoftLimits(c, hm, location) == Done && machineLoaded
    // on success the caller's own location goes to the driver, then one notification, nothing else
    ensures s.status == Done ==> s.events == [DriverMoveTo(hm, location, speed), HeadActivity(c.name)]
    // on failure nobody is notified
    ensures s.status.Failed? ==> s.events == [] || s.events == [DriverMoveTo(hm, location, speed)]
    // a refused check is reported as such, and a driver fault is passed on unchanged
    ensures CheckSoftLimits(c, hm, location).Failed? ==> s.status == CheckSoftLimits(c, hm, location)
    ensures CheckSoftLimits(c, hm, location) == Done && !machineLoaded ==> s.status == Failed(MachineNotLoaded)
    ensures CheckSoftLimits(c, hm, location) == Done && machineLoaded && reply.Fault? ==>
      s.status == Failed(DriverError(reply.message))
  {
    var check := CheckSoftLimits(c, hm, location);
    if check.Failed? then Step(check, [])
    else if !machineLoaded then Step(Failed(MachineNotLoaded), [])
    else if reply.Fault? then Step(Failed(DriverError(reply.message)), [DriverMoveTo(hm, location, speed)])
    else Step(Done, [DriverMoveTo(hm, location, speed), HeadActivity(c.name)])
  }

  /** One home() on a head configured as `c`, when the driver answers `reply`. */
  function HomeStep(c: Config, machineLoaded: bool, reply: DriverReply): (s: Step)
    ensures s.status == Done <==> machineLoaded && reply == Completed
    // the driver is the first to hear of a home, and only when the machine is there
    ensures s.events != [] <==> machineLoaded
    ensures s.events != [] ==> s.events[0] == DriverHome(c.name)
    // the notification follows a completed home and nothing else
    ensures HeadActivity(c.name) in s.events <==> s.status == Done
    ensures s.status == Done ==> s.events == [DriverHome(c.name), HeadActivity(c.name)]
    // a driver fault is passed on unchanged, and nothing happens after the failed home
    ensures machineLoaded && reply.Fault? ==> s == Step(Failed(DriverError(reply.message)), [DriverHome(c.name)])
    ensures !machineLoaded ==> s.status == Failed(MachineNotLoaded)
  {
    if !machineLoaded then Step(Failed(MachineNotLoaded), [])
    else if reply.Fault? then Step(Failed(DriverError(reply.message)), [DriverHome(c.name)])
    else Step(Done, [DriverHome(c.name), HeadActivity(c.name)])
  }

  /** With soft limits off, a move is never refused for its position: whatever the
      coordinates, a loaded machine's driver gets the command as given. */
  lemma DisabledLimitsAlwaysDispatch(c: Config, hm: Mountable, location: Location, speed: real, reply: DriverReply)
    requires !c.softLimitsEnabled
    ensures MoveToStep(c, true, hm, location, speed, reply).events[0] == DriverMoveTo(hm, location, speed)
    ensures MoveToStep(c, true, hm, location, speed, reply).status ==
      if reply == Completed then Done else Failed(DriverError(reply.message))
  {
  }

  /** Z and rotation play no part in the verdict: targets that agree on X and Y are
      accepted or refused together. */
  lemma ZAndRotationIgnored(c: Config, hm: Mountable, a: Location, b: Location)
    requires a.x == b.x && a.y == b.y
    ensures CheckSoftLimits(c, hm, a) == Done <==> CheckSoftLimits(c, hm, b) == Done
  {
  }

  /** A box that is empty on X or on Y fails closed: with limits on, every move is refused. */
  lemma MalformedBoxRejectsAll(c: Config, hm: Mountable, location: Location)
    requires c.softLimitsEnabled
    requires c.minLocation.x > c.maxLocation.x || c.minLocation.y > c.maxLocation.y
    ensures CheckSoftLimits(c, hm, location).Failed?
  {
  }

  /** The bounds are inclusive: a target whose camera pose sits on a corner of the box passes. */
  lemma CornersAccepted(c: Config, hm: Mountable, location: Location)
    requires c.softLimitsEnabled && c.defaultCamera.Some?
    requires c.minLocation.x <= c.maxLocation.x && c.minLocation.y <= c.maxLocation.y
    requires var camera := CameraLocation(location, hm.headOffsets, c.defaultCamera.value.headOffsets);
      (camera.x == c.minLocation.x || camera.x == c.maxLocation.x) &&
      (camera.y == c.minLocation.y || camera.y == c.maxLocation.y)
    ensures CheckSoftLimits(c, hm, location) == Done
  {
  }

  // ---------------------------------------------------------------------------
  // Sessions: a run of calls on one head, and the invariants of its event log.

  datatype Command =
    | Home(reply: DriverReply)
    | MoveTo(hm: Mountable, location: Location, speed: real, reply: DriverReply)

  function Perform(c: Config, machineLoaded: bool, cmd: Command): Step
  {
    match cmd
    case Home(reply) => HomeStep(c, machineLoaded, reply)
    case MoveTo(hm, location, speed, reply) => MoveToStep(c, machineLoaded, hm, location, speed, reply)
  }

  /** The events caused by running `cmds` one after the other. */
  function Session(c: Config, machineLoaded: bool, cmds: seq<Command>): seq<Event>
    decreases |cmds|
  {
    if cmds == [] then []
    else Session(c, machineLoaded, cmds[..|cmds| - 1]) + Perform(c, machineLoaded, cmds[|cmds| - 1]).events
  }

  /** A driver move is safe when the default camera it implies lies in the box. */
  predicate SafeEvent(c: Config, e: Event)
  {
    e.DriverMoveTo? ==>
      c.defaultCamera.Some? &&
      InBox(CameraLocation(e.location, e.hm.headOffsets, c.defaultCamera.value.headOffsets),
            c.minLocation, c.maxLocation)
  }

  /** Every move the driver has received is safe. */
  predicate SafeLog(c: Config, log: seq<Event>)
  {
    forall i :: 0 <= i < |log| ==> SafeEvent(c, log[i])
  }

  /** Every activity notification comes right after the driver command it reports. */
  predicate NotifiedAfterDriver(log: seq<Event>)
  {
    (|log| > 0 ==> !log[0].HeadActivity?) &&
    forall i, j :: 0 <= i < |log| && 0 <= j < |log| && j == i + 1 && log[j].HeadActivity? ==>
      log[i].DriverHome? || log[i].DriverMoveTo?
  }

  /** The log invariants: safety when soft limits are on, and notification order always. */
  predicate LogInvariant(c: Config, log: seq<Event>)
  {
    (c.softLimitsEnabled ==> SafeLog(c, log)) && NotifiedAfterDriver(log)
  }

  /** One more call keeps the log invariants. */
  lemma PerformPreserves(c: Config, machineLoaded: bool, log: seq<Event>, cmd: Command)
    requires LogInvariant(c, log)
    ensures LogInvariant(c, log + Perform(c, machineLoaded, cmd).events)
  {
  }

  /** Whatever calls are made, the driver never receives a move that takes the
      default camera out of the soft-limit box while limits are on, and every
      notification follows its driver command. Coordinates here are reals; for
      IEEE doubles this holds only when no NaN appears (see module DoubleLimits). */
  lemma {:induction false} SessionKeepsInvariant(c: Config, machineLoaded: bool, cmds: seq<Command>)
    ensures LogInvariant(c, Session(c, machineLoaded, cmds))
  {
    if cmds != [] {
      SessionKeepsInvariant(c, machineLoaded, cmds[..|cmds| - 1]);
      PerformPreserves(c, machineLoaded, Session(c, machineLoaded, cmds[..|cmds| - 1]), cmds[|cmds| - 1]);
    }
  }

  // ---------------------------------------------------------------------------
  // The head itself.

  class ReferenceHead {
    const name: string
    const softLimitsEnabled: bool
    const minLocation: Location
    const maxLocation: Location
    const defaultCamera: Option<Mountable>
    /** Set once the machine configuration is loaded; until then there is no driver. */
    var machineLoaded: bool
    /** Everything the head has asked of the driver and the activity listeners. */
    var log: seq<Event>

    function Settings(): Config
    {
      Config(name, softLimitsEnabled, minLocation, maxLocation, defaultCamera)
    }

    ghost predicate Valid()
      reads this
    {
      LogInvariant(Settings(), log)
    }

    constructor (name: string, softLimitsEnabled: bool, minLocation: Location, maxLocation: Location,
                 defaultCamera: Option<Mountable>)
      ensures Valid()
      ensures Settings() == Config(name, softLimitsEnabled, minLocation, maxLocation, defaultCamera)
      ensures !machineLoaded && log == []
    {
      this.name := name;
      this.softLimitsEnabled := softLimitsEnabled;
      this.minLocation := minLocation;
      this.maxLocation := maxLocation;
      this.defaultCamera := defaultCamera;
      machineLoaded := false;
      log := [];
    }

    /** The configuration listener: the machine, and with it the driver, becomes available. */
    method ConfigurationLoaded()
      requires Valid()
      modifies this
      ensures Valid()
      ensures machineLoaded && log == old(log)
    {
      machineLoaded := true;
    }

    method Home(reply: DriverReply) returns (status: Status)
      requires Valid()
      modifies this
      ensures Valid()
      ensures status == HomeStep(Settings(), machineLoaded, reply).status
      ensures log == old(log) + HomeStep(Settings(), machineLoaded, reply).events
      ensures machineLoaded == old(machineLoaded)
    {
      PerformPreserves(Settings(), machineLoaded, log, Command.Home(reply));
      if !machineLoaded {
        return Failed(MachineNotLoaded);
      }
      log := log + [DriverHome(name)];
      if reply.Fault? {
        return Failed(DriverError(reply.message));
      }
      log := log + [HeadActivity(name)];
      status := Done;
    }

    method MoveTo(hm: Mountable, location: Location, speed: real, reply: DriverReply) returns (status: Status)
      requires Valid()
      modifies this
      ensures Valid()
      ensures status == MoveToStep(Settings(), machineLoaded, hm, location, speed, reply).status
      ensures log == old(log) + MoveToStep(Settings(), machineLoaded, hm, location, speed, reply).events
      ensures machineLoaded == old(machineLoaded)
    {
      PerformPreserves(Settings(), machineLoaded, log, Command.MoveTo(hm, location, speed, reply));
      if softLimitsEnabled {
        if defaultCamera.None? {
          return Failed(NoDefaultCamera(name));
        }
        var cameraLocation := CameraLocation(location, hm.headOffsets, defaultCamera.value.headOffsets);
        if OutsideSoftLimits(cameraLocation, minLocation, maxLocation) {
          return Failed(OutOfSoftLimits(hm.name, location, name));
        }
      }
      if !machineLoaded {
        return Failed(MachineNotLoaded);
      }
      log := log + [DriverMoveTo(hm, location, speed)];
      if reply.Fault? {
        return Failed(DriverError(reply.message));
      }
      log := log + [HeadActivity(name)];
      status := Done;
    }
  }
}
