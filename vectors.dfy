/** The value type standing for `glm.vec3`. */
module Vectors {
  datatype Vec3 = Vec3(x: real, y: real, z: real)
}
