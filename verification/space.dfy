/** World-space vocabulary shared by both canvases: coordinate axes, Euler rotations in
    whole quarter turns (three.js's default `XYZ` order), and the world-to-camera map of
    an object with a position, a rotation and a scale. */
module Space {
  import opened Wire

  datatype Axis = X | Y | Z

  function Coord(v: Vector3, c: Axis): real
  {
    match c
    case X => v.x
    case Y => v.y
    case Z => v.z
  }

  /** `d` times the unit vector along `c`. */
  function OnAxis(c: Axis, d: real): Vector3
  {
    match c
    case X => Vector3(d, 0.0, 0.0)
    case Y => Vector3(0.0, d, 0.0)
    case Z => Vector3(0.0, 0.0, d)
  }

  /** `Math.abs`. */
  function Abs(r: real): real
  {
    if r < 0.0 then -r else r
  }

  function Sub(a: Vector3, b: Vector3): Vector3
  {
    Vector3(a.x - b.x, a.y - b.y, a.z - b.z)
  }

  function Dot(a: Vector3, b: Vector3): real
  {
    a.x * b.x + a.y * b.y + a.z * b.z
  }

  /** A whole number of counter-clockwise quarter turns, reduced to one revolution:
      `q` stands for the angle `q·π/2` (so -π/2 is 3). */
  type Quarter = q: int | 0 <= q < 4

  /** Dotting with a unit axis vector picks out that coordinate. */
  lemma DotOnAxis(a: Axis, d: Vector3)
    ensures Dot(OnAxis(a, 1.0), d) == Coord(d, a)
  {
    match a
    case X =>
    case Y =>
    case Z =>
  }

  /** An Euler rotation whose three angles are whole quarter turns. */
  datatype Turns = Turns(x: Quarter, y: Quarter, z: Quarter)

  /** Counter-clockwise quarter turns about the x axis. */
  function TurnX(q: Quarter, v: Vector3): Vector3
  {
    match q
    case 0 => v
    case 1 => Vector3(v.x, -v.z, v.y)
    case 2 => Vector3(v.x, -v.y, -v.z)
    case 3 => Vector3(v.x, v.z, -v.y)
  }

  /** Counter-clockwise quarter turns about the y axis. */
  function TurnY(q: Quarter, v: Vector3): Vector3
  {
    match q
    case 0 => v
    case 1 => Vector3(v.z, v.y, -v.x)
    case 2 => Vector3(-v.x, v.y, -v.z)
    case 3 => Vector3(-v.z, v.y, v.x)
  }

  /** Counter-clockwise quarter turns about the z axis. */
  function TurnZ(q: Quarter, v: Vector3): Vector3
  {
    match q
    case 0 => v
    case 1 => Vector3(-v.y, v.x, v.z)
    case 2 => Vector3(-v.x, -v.y, v.z)
    case 3 => Vector3(v.y, -v.x, v.z)
  }

  /** The rotation matrix of an `XYZ` Euler triple is Rx·Ry·Rz. */
  function Rotate(t: Turns, v: Vector3): Vector3
  {
    TurnX(t.x, TurnY(t.y, TurnZ(t.z, v)))
  }

  /** The orientation three.js's `lookAt(0, 0, 0)` gives a camera placed on the positive
      `eye` axis, with +y as the up direction. For an eye on +y the up direction is
      parallel to the line of sight and the library nudges the sight line by 1e-4; the
      quarter turn here is the exact limit of that nudge. */
  function LookAtOriginFrom(eye: Axis): Turns
  {
    match eye
    case X => Turns(0, 1, 0)
    case Y => Turns(3, 0, 0)
    case Z => Turns(0, 0, 0)
  }

  /** A camera looks along its local -z. After `LookAtOriginFrom(a)` its local +z points
      back at the eye on axis `a`, so it faces the origin, and its local +x is
      `up × back`: horizontal, with no roll. Concretely, for an eye off the y axis the
      camera's up stays the world's +y, and for the eye on +y its right is the world's
      +x (the direction the nudged sight line gives). */
  lemma LookAtFacesOrigin(a: Axis)
    ensures Rotate(LookAtOriginFrom(a), OnAxis(Z, 1.0)) == OnAxis(a, 1.0)
    ensures Rotate(LookAtOriginFrom(a), OnAxis(X, 1.0)).y == 0.0
    ensures a != Y ==> Rotate(LookAtOriginFrom(a), OnAxis(Y, 1.0)) == OnAxis(Y, 1.0)
    ensures a == Y ==> Rotate(LookAtOriginFrom(a), OnAxis(X, 1.0)) == OnAxis(X, 1.0)
  {
    match a
    case X => LookAtFromX();
    case Y => LookAtFromY();
    case Z =>
  }

  /** From +x: the quarter turn about y. */
  lemma LookAtFromX()
    ensures Rotate(Turns(0, 1, 0), OnAxis(Z, 1.0)) == OnAxis(X, 1.0)
    ensures Rotate(Turns(0, 1, 0), OnAxis(X, 1.0)) == OnAxis(Z, -1.0)
    ensures Rotate(Turns(0, 1, 0), OnAxis(Y, 1.0)) == OnAxis(Y, 1.0)
  {
    assert TurnY(1, OnAxis(Z, 1.0)) == OnAxis(X, 1.0);
    assert TurnY(1, OnAxis(X, 1.0)) == OnAxis(Z, -1.0);
    assert TurnY(1, OnAxis(Y, 1.0)) == OnAxis(Y, 1.0);
  }

  /** From +y: three quarter turns about x. */
  lemma LookAtFromY()
    ensures Rotate(Turns(3, 0, 0), OnAxis(Z, 1.0)) == OnAxis(Y, 1.0)
    ensures Rotate(Turns(3, 0, 0), OnAxis(X, 1.0)) == OnAxis(X, 1.0)
  {
    assert TurnX(3, OnAxis(Z, 1.0)) == OnAxis(Y, 1.0);
    assert TurnX(3, OnAxis(X, 1.0)) == OnAxis(X, 1.0);
  }

  /** Camera-space coordinates of world point `p` for a camera at `eye` with rotation
      `rot` and scale `scale`: the inverse of translate · rotate · scale. */
  function CameraLocal(eye: Vector3, rot: Turns, scale: Vector3, p: Vector3): Vector3
    requires scale.x != 0.0 && scale.y != 0.0 && scale.z != 0.0
  {
    var d := Sub(p, eye);
    Vector3(Dot(Rotate(rot, OnAxis(X, 1.0)), d) / scale.x,
            Dot(Rotate(rot, OnAxis(Y, 1.0)), d) / scale.y,
            Dot(Rotate(rot, OnAxis(Z, 1.0)), d) / scale.z)
  }
}
