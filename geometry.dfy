/** three.js value types the cameras store, as opaque records of reals. */
module Geometry {
  /** Spherical offset: radius, polar angle, azimuthal angle. */
  datatype Spherical = Spherical(radius: real, phi: real, theta: real)
  datatype Vec3 = Vec3(x: real, y: real, z: real)
}
