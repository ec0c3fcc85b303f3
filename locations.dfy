/** A head pose and the vector arithmetic the head uses on it. */
module Locations {

  /** A pose on the head's four axes. Every pose of the model is in one common
      unit of length, so no unit tag is carried. */
  datatype Location = Location(x: real, y: real, z: real, rotation: real)

  /** Axis-by-axis sum of two poses. */
  function Add(a: Location, b: Location): Location
  {
    Location(a.x + b.x, a.y + b.y, a.z + b.z, a.rotation + b.rotation)
  }

  /** Axis-by-axis difference of two poses. */
  function Subtract(a: Location, b: Location): Location
  {
    Location(a.x - b.x, a.y - b.y, a.z - b.z, a.rotation - b.rotation)
  }
}
