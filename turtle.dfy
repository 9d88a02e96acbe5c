/**
 * The turtle: a position and an orientation held as mutable gl-matrix objects.
 *
 * `moveForward` and `rotate` write into the existing `position` and
 * `orientation` objects instead of replacing them, so whoever else holds one of
 * those objects (a candidate turtle, an edge, an intersection) sees the change.
 * The two object kinds are classes for that reason.
 */
module Turtles {

  import opened GlMatrix

  /** A gl-matrix vec3: three numbers updated in place. */
  class Vec3 {
    var x: real
    var y: real
    var z: real

    /** vec3.fromValues */
    constructor (x: real, y: real, z: real)
      ensures Value() == V3(x, y, z)
    {
      this.x, this.y, this.z := x, y, z;
    }

    function Value(): V3
      reads this
    {
      V3(x, y, z)
    }
  }

  /** A gl-matrix quat, holding the word of rotations it is the product of. */
  class Quat {
    var factors: Orientation

    /** quat.create: the identity quaternion. */
    constructor Identity()
      ensures factors == []
    {
      factors := [];
    }
  }

  /** The fixed up axis every turtle moves along, before rotation. */
  const GlobalUp := V4(0.0, 1.0, 0.0, 1.0)

  /** The footprint scale getTransformMatrix applies. */
  const FootprintScale := V3(0.5, 0.9, 0.5)

  /** Where moveForward(d) takes a turtle at p with orientation o and up axis up. */
  function Advanced(gl: Library, p: V3, o: Orientation, up: V4, d: real): V3 {
    Add(p, Scale(d, gl.forward(o, up)))
  }

  /** A turtle's state as values: position coordinates and orientation word. */
  datatype Pose = Pose(pos: V3, orient: Orientation)

  class Turtle {
    const position: Vec3
    const orientation: Quat
    const globalUp: V4 := GlobalUp

    /** Stores both objects by reference: no copy is made. */
    constructor (pos: Vec3, orient: Quat)
      ensures position == pos && orientation == orient
    {
      position := pos;
      orientation := orient;
    }

    /** The current contents of the two objects. */
    function State(): Pose
      reads position, orientation
    {
      Pose(position.Value(), orientation.factors)
    }

    /** Adds distance times the rotated up axis to the position object. */
    method MoveForward(distance: real, gl: Library)
      modifies position
      ensures position.Value() == Advanced(gl, old(position.Value()), orientation.factors, globalUp, distance)
      ensures unchanged(orientation)
    {
      var forward := gl.forward(orientation.factors, globalUp);
      var move := Scale(distance, forward);
      position.x, position.y, position.z := position.x + move.x, position.y + move.y, position.z + move.z;
    }

    /** Multiplies the orientation object, on the right, by fromEuler(x, y, z). */
    method Rotate(x: real, y: real, z: real)
      modifies orientation
      ensures orientation.factors == old(orientation.factors) + [Euler(x, y, z)]
      ensures unchanged(position)
    {
      orientation.factors := orientation.factors + [Euler(x, y, z)];
    }

    /** translate(position) · (rotate(orientation) · scale(0.5, 0.9, 0.5)); changes nothing. */
    method GetTransformMatrix(gl: Library) returns (m: Mat4)
      ensures m == gl.multiply(gl.fromTranslation(position.Value()),
                               gl.multiply(gl.fromQuat(orientation.factors), gl.fromScaling(FootprintScale)))
    {
      var rotate := gl.fromQuat(orientation.factors);
      var translate := gl.fromTranslation(position.Value());
      var scale := gl.fromScaling(FootprintScale);
      var transform := gl.multiply(rotate, scale);
      m := gl.multiply(translate, transform);
    }
  }

}
