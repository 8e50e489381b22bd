/**
 * The glm values the program passes around, over the reals. Matrices are kept
 * symbolic: a matrix is named by the glm call that builds it, since the
 * trigonometry and the float products of glm are not part of this model.
 */
module Geometry {

  datatype Vec2 = Vec2(x: real, y: real)

  datatype Vec3 = Vec3(x: real, y: real, z: real)

  const ZERO3: Vec3 := Vec3(0.0, 0.0, 0.0)
  const ZERO2: Vec2 := Vec2(0.0, 0.0)

  function Add(a: Vec3, b: Vec3): Vec3 {
    Vec3(a.x + b.x, a.y + b.y, a.z + b.z)
  }

  function Sub(a: Vec3, b: Vec3): Vec3 {
    Vec3(a.x - b.x, a.y - b.y, a.z - b.z)
  }

  function Scale(a: Vec3, k: real): Vec3 {
    Vec3(a.x * k, a.y * k, a.z * k)
  }

  /** A 4x4 matrix, named by the glm call that produced it. */
  datatype Mat4 =
    | Perspective(fovDegrees: real, width: nat, height: nat, near: real, far: real)
      // glm::perspective(radians(fov), float(width) / float(height), near, far)
    | LookAt(eye: Vec3, center: Vec3, up: Vec3)
      // glm::lookAt(eye, center, up)
    | TranslateScale(translation: Vec3, scale: Vec3)
      // glm::scale(glm::translate(mat4(1), translation), scale)
}
