/** The pure half of the soft-limit check: projecting a mountable's target onto
    the default camera and testing it against the inclusive X/Y box. */
module SoftLimits {
  import opened Locations

  /** Where the default camera lands when a head mountable with head offsets
      `hmOffsets` is sent to `location`: the mountable's offsets are taken off and
      the camera's offsets are put on. */
  function CameraLocation(location: Location, hmOffsets: Location, cameraOffsets: Location): (r: Location)
    ensures r.x == location.x - hmOffsets.x + cameraOffsets.x
    ensures r.y == location.y - hmOffsets.y + cameraOffsets.y
    ensures r.z == location.z - hmOffsets.z + cameraOffsets.z
    ensures r.rotation == location.rotation - hmOffsets.rotation + cameraOffsets.rotation
    ensures MountableLocation(r, hmOffsets, cameraOffsets) == location
  {
    Add(Subtract(location, hmOffsets), cameraOffsets)
  }

  /** The inverse projection: where the mountable is when the camera is at `camera`. */
  function MountableLocation(camera: Location, hmOffsets: Location, cameraOffsets: Location): Location
  {
    Add(Subtract(camera, cameraOffsets), hmOffsets)
  }

  /** The other round trip: mapping a camera pose back to the mountable and projecting
      it again gives the camera pose. */
  lemma ProjectionRoundTrip(camera: Location, hmOffsets: Location, cameraOffsets: Location)
    ensures CameraLocation(MountableLocation(camera, hmOffsets, cameraOffsets), hmOffsets, cameraOffsets) == camera
  {
  }

  /** The rejection test of the head, in the form the head evaluates it: a camera
      pose is refused when its X or its Y lies strictly beyond a bound. Z and
      rotation are not looked at. */
  predicate OutsideSoftLimits(camera: Location, min: Location, max: Location)
  {
    camera.x < min.x || camera.x > max.x || camera.y < min.y || camera.y > max.y
  }

  /** The soft-limit box, stated as the closed interval on X and on Y. */
  predicate InBox(camera: Location, min: Location, max: Location)
  {
    min.x <= camera.x <= max.x && min.y <= camera.y <= max.y
  }

  /** The disjunctive rejection test refuses exactly the poses outside the closed box. */
  lemma OutsideIffNotInBox(camera: Location, min: Location, max: Location)
    ensures OutsideSoftLimits(camera, min, max) <==> !InBox(camera, min, max)
  {
  }

  /** A box that is empty on X or on Y contains no pose: a malformed box rejects everything. */
  lemma MalformedBoxIsEmpty(camera: Location, min: Location, max: Location)
    requires min.x > max.x || min.y > max.y
    ensures OutsideSoftLimits(camera, min, max)
  {
  }
}
