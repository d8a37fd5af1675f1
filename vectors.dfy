/**
 * raylib's Vector2 / Vector3 value types and the two raymath helpers the
 * kinematics use (Vector2Add, Vector2Subtract). Single-precision floats are
 * modelled as exact reals.
 */
module Vectors {

  datatype Vec2 = Vec2(x: real, y: real)
  {
    /** raymath's Vector2Add. */
    function Add(v: Vec2): Vec2 { Vec2(x + v.x, y + v.y) }

    /** raymath's Vector2Subtract. */
    function Sub(v: Vec2): Vec2 { Vec2(x - v.x, y - v.y) }
  }

  datatype Vec3 = Vec3(x: real, y: real, z: real)

  /**
   * The C library's cosf and sinf. Their bodies are not part of this model,
   * so they are handed to every operation that calls them. Lemmas that need
   * a particular value (cos 0 = 1, say) ask for it in their requires.
   */
  datatype Trig = Trig(cos: real -> real, sin: real -> real)
}
