/** Points, vectors and poses shared by the three AR views. All quantities are real numbers. */
module Geometry {

  /** A three-component vector: a position, a per-axis scale, or Euler angles in radians. */
  datatype Vec3 = Vec3(x: real, y: real, z: real)

  const Origin := Vec3(0.0, 0.0, 0.0)

  /**
   * A world pose: where an object is and how it is turned. The orientation is kept as
   * Euler angles; three.js keeps an object's quaternion and its Euler `rotation` in step,
   * so copying one copies the other.
   */
  datatype Pose = Pose(position: Vec3, rotation: Vec3)

  /** The pose of a freshly constructed three.js object. */
  const IdentityPose := Pose(Origin, Origin)

  /** A screen point (`clientX`/`clientY`, in pixels). */
  datatype Point = Point(x: real, y: real)
}
