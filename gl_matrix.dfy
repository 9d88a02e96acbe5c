/**
 * Values exchanged with the gl-matrix library, and that library's numeric
 * operations kept abstract.
 *
 * A quaternion built by the turtle code is always the identity multiplied on
 * the right by a series of `quat.fromEuler` rotations, so it is represented by
 * that series (its word). The floating-point operations that turn such a word,
 * a direction or a translation into numbers (`mat4.fromQuat`,
 * `vec4.transformMat4`, `vec3.length`, `mat4.fromRotationTranslationScale`,
 * ...) are not modelled; they are the fields of a `Library` value, so every
 * property proved here holds whatever those functions compute.
 */
module GlMatrix {

  datatype V3 = V3(x: real, y: real, z: real)

  datatype V4 = V4(x: real, y: real, z: real, w: real)

  /** The three angles, in degrees, handed to `quat.fromEuler`. */
  datatype Euler = Euler(x: real, y: real, z: real)

  /** identity · fromEuler(o[0]) · fromEuler(o[1]) · … in this order. */
  type Orientation = seq<Euler>

  /** A 4x4 matrix in gl-matrix's column-major layout of 16 numbers. */
  type Mat4 = m: seq<real> | |m| == 16 witness seq(16, _ => 0.0)

  /** The gl-matrix operations the core calls, as uninterpreted functions. */
  datatype Library = Library(
    // mat4.fromQuat followed by vec4.transformMat4; the x, y, z of the result
    forward: (Orientation, V4) -> V3,
    // mat4.fromQuat, mat4.fromTranslation, mat4.fromScaling, mat4.multiply
    fromQuat: Orientation -> Mat4,
    fromTranslation: V3 -> Mat4,
    fromScaling: V3 -> Mat4,
    multiply: (Mat4, Mat4) -> Mat4,
    // vec3.length
    length: V3 -> real,
    // the rotation about the z axis that turns (0,1,0) onto a direction
    // (quat.setAxisAngle with an acos angle), combined with a translation and
    // a scale by mat4.fromRotationTranslationScale
    alignedTransform: (V3, V3, V3) -> Mat4
  )

  function Add(a: V3, b: V3): V3 {
    V3(a.x + b.x, a.y + b.y, a.z + b.z)
  }

  function Sub(a: V3, b: V3): V3 {
    V3(a.x - b.x, a.y - b.y, a.z - b.z)
  }

  function Scale(d: real, v: V3): V3 {
    V3(d * v.x, d * v.y, d * v.z)
  }

  /** The halfway point of a segment, as Edge.getTranformation computes it. */
  function Midpoint(a: V3, b: V3): (m: V3)
    ensures Sub(m, a) == Sub(b, m)
  {
    V3((a.x + b.x) / 2.0, (a.y + b.y) / 2.0, (a.z + b.z) / 2.0)
  }

}
