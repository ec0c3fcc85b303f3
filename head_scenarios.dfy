/** Clients of the head, as a caller sees it through the contracts alone. */
module HeadScenarios {
  import opened Locations
  import opened ReferenceHeads

  /** A client: a head whose camera sits at the head's reference point and whose box
      is [0, 100] on X and Y, and a nozzle with head offsets of -10 on X. Sent to
      X = 95 the nozzle would put the camera at X = 105, so the move is refused and
      nothing is sent. */
  method RefusedScenario()
  {
    var camera := Mountable("Camera", Location(0.0, 0.0, 0.0, 0.0));
    var nozzle := Mountable("N1", Location(-10.0, 0.0, 0.0, 0.0));
    var target := Location(95.0, 50.0, -10.0, 0.0);
    var head := new ReferenceHead("H1", true, Location(0.0, 0.0, -100.0, -180.0),
                                  Location(100.0, 100.0, 0.0, 180.0), Some(camera));
    head.ConfigurationLoaded();
    var status := head.MoveTo(nozzle, target, 1.0, Completed);
    assert status == Failed(OutOfSoftLimits("N1", target, "H1"));
    assert head.log == [];
  }

  /** A client: the same head and nozzle sent to X = 85 put the camera at X = 95,
      inside the box, and the nozzle's own target goes to the driver. */
  method AcceptedScenario()
  {
    var camera := Mountable("Camera", Location(0.0, 0.0, 0.0, 0.0));
    var nozzle := Mountable("N1", Location(-10.0, 0.0, 0.0, 0.0));
    var target := Location(85.0, 50.0, -10.0, 0.0);
    var head := new ReferenceHead("H1", true, Location(0.0, 0.0, -100.0, -180.0),
                                  Location(100.0, 100.0, 0.0, 180.0), Some(camera));
    head.ConfigurationLoaded();
    var status := head.MoveTo(nozzle, target, 1.0, Completed);
    assert status == Done;
    assert head.log == [DriverMoveTo(nozzle, target, 1.0), HeadActivity("H1")];
  }
}
