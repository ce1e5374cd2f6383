/** Values shared by the three.js scene components. */
module Scene {
  /** A three.js vector: positions, Euler rotations and per-axis scales. */
  datatype Vec3 = Vec3(x: real, y: real, z: real)
}
