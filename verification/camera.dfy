/** The `Camera` component of the `functions.tsx` viewer. Whenever the grid size or the
    projection changes it builds a fresh orthographic camera and poses it step by step
    (position, look at the origin, optional vertical flip); on every rendered frame it
    pins the rotation for the `yz` projection. */
module Camera {
  import opened Wire
  import opened Seqs
  import opened Decades
  import opened Space
  import opened Snapshot
  import opened AgentsCanvas

  /** `Number.MAX_SAFE_INTEGER`. */
  const MaxSafeInteger: real := 9007199254740991.0

  /** How far from the origin the camera is placed: `Number.MAX_SAFE_INTEGER / 10`. */
  const EyeDistance: real := MaxSafeInteger / 10.0

  /** Everything the viewer sets on the camera: the view box, the clipping range, and
      the position, rotation and scale of the camera object. */
  datatype Pose = Pose(
    left: real, right: real, top: real, bottom: real, near: real, far: real,
    position: Vector3, rotation: Turns, scale: Vector3)

  /** The positive axis a point lies on, if it lies on one. */
  function EyeAxis(p: Vector3): Option<Axis>
  {
    if p.x > 0.0 && p.y == 0.0 && p.z == 0.0 then Some(X)
    else if p.x == 0.0 && p.y > 0.0 && p.z == 0.0 then Some(Y)
    else if p.x == 0.0 && p.y == 0.0 && p.z > 0.0 then Some(Z)
    else None
  }

  /** A `THREE.OrthographicCamera`, reduced to the properties the viewer sets. */
  class OrthographicCamera {
    var left: real
    var right: real
    var top: real
    var bottom: real
    var near: real
    var far: real
    var position: Vector3
    var rotation: Turns
    var scale: Vector3

    function Current(): Pose
      reads this
    {
      Pose(left, right, top, bottom, near, far, position, rotation, scale)
    }

    /** `new THREE.OrthographicCamera(left, right, top, bottom, near, far)`: at the
        origin, unrotated, unscaled. */
    constructor (left: real, right: real, top: real, bottom: real, near: real, far: real)
      ensures Current() == Pose(left, right, top, bottom, near, far,
                                Vector3(0.0, 0.0, 0.0), Turns(0, 0, 0), Vector3(1.0, 1.0, 1.0))
    {
      this.left, this.right, this.top, this.bottom := left, right, top, bottom;
      this.near, this.far := near, far;
      position := Vector3(0.0, 0.0, 0.0);
      rotation := Turns(0, 0, 0);
      scale := Vector3(1.0, 1.0, 1.0);
    }

    /** `camera.position.set(x, y, z)`. */
    method SetPosition(p: Vector3)
      modifies this
      ensures Current() == old(Current()).(position := p)
    {
      position := p;
    }

    /** `camera.lookAt(0, 0, 0)`, for a camera standing on a positive axis. */
    method LookAtOrigin()
      requires EyeAxis(position).Some?
      modifies this
      ensures Current() == old(Current()).(rotation := LookAtOriginFrom(EyeAxis(old(position)).value))
    {
      rotation := LookAtOriginFrom(EyeAxis(position).value);
    }

    /** `camera.scale.y = s`. */
    method SetScaleY(s: real)
      modifies this
      ensures Current() == old(Current()).(scale := old(scale).(y := s))
    {
      scale := scale.(y := s);
    }

    /** `camera.rotation.set(x, y, z)`. */
    method SetRotation(t: Turns)
      modifies this
      ensures Current() == old(Current()).(rotation := t)
    {
      rotation := t;
    }
  }

  /** The pose the camera is built with, stated through the depth axis of the projection:
      a symmetric box of half-width `1.1·g`, clipping from 0 to `MAX_SAFE_INTEGER / 5`, the
      camera on the positive depth axis facing the origin, and the vertical axis flipped
      for `xz` only. */
  function InitialPose(g: real, axes: Axes): Pose
  {
    Pose(-g * 1.1, g * 1.1, g * 1.1, -g * 1.1, 0.0, MaxSafeInteger / 5.0,
         OnAxis(Depth(axes), EyeDistance), LookAtOriginFrom(Depth(axes)),
         Vector3(1.0, if axes == XZ then -1.0 else 1.0, 1.0))
  }

  /** The pose after the per-frame callback: `yz` overwrites the rotation with
      (π/2, π/2, 0); the other projections leave the camera alone. */
  function FramePose(p: Pose, axes: Axes): Pose
  {
    if axes == YZ then p.(rotation := Turns(1, 1, 0)) else p
  }

  /** The `useEffect` body: build the camera and pose it for the projection. */
  method MakeCamera(gridSize: real, projectionAxes: Axes) returns (camera: OrthographicCamera)
    ensures fresh(camera)
    ensures camera.Current() == InitialPose(gridSize, projectionAxes)
  {
    camera := new OrthographicCamera(-gridSize * 1.1, gridSize * 1.1, gridSize * 1.1,
                                     -gridSize * 1.1, 0.0, MaxSafeInteger / 5.0);
    match projectionAxes {
      case XY =>
        camera.SetPosition(Vector3(0.0, 0.0, MaxSafeInteger / 10.0));
        camera.LookAtOrigin();
      case YZ =>
        camera.SetPosition(Vector3(MaxSafeInteger / 10.0, 0.0, 0.0));
        camera.LookAtOrigin();
      case XZ =>
        camera.SetPosition(Vector3(0.0, MaxSafeInteger / 10.0, 0.0));
        camera.LookAtOrigin();
        camera.SetScaleY(-1.0);
    }
  }

  /** The `useFrame` callback. */
  method OnFrame(camera: OrthographicCamera, projectionAxes: Axes)
    modifies camera
    ensures camera.Current() == FramePose(old(camera.Current()), projectionAxes)
  {
    match projectionAxes {
      case XY =>
      case YZ =>
        camera.SetRotation(Turns(1, 1, 0));
      case XZ =>
    }
  }

  /** The pose the scene is rendered with: built, then pinned by one frame. Pinning
      again changes nothing. */
  function RenderedPose(g: real, axes: Axes): (p: Pose)
    ensures FramePose(p, axes) == p
  {
    FramePose(InitialPose(g, axes), axes)
  }

  /** Camera-space coordinates of a world point under a pose. */
  function Local(pose: Pose, p: Vector3): Vector3
    requires pose.scale.x != 0.0 && pose.scale.y != 0.0 && pose.scale.z != 0.0
  {
    CameraLocal(pose.position, pose.rotation, pose.scale, p)
  }

  /** The axis shown left to right and the axis shown bottom to top. */
  function Horizontal(axes: Axes): Axis
  {
    match axes
    case XY => X
    case YZ => Y
    case XZ => X
  }

  function Vertical(axes: Axes): Axis
  {
    match axes
    case XY => Y
    case YZ => Z
    case XZ => Z
  }

  /** The rendered camera shows the projection's plane the right way round: a world
      point's screen x is its first named coordinate, its screen y the second, and its
      distance in front of the camera is `MAX_SAFE_INTEGER / 10` minus its depth
      coordinate. The horizontal, vertical and depth axes are three different axes. */
  lemma ScreenShowsPlane(g: real, axes: Axes, p: Vector3)
    ensures var pose := RenderedPose(g, axes);
      pose.scale.x != 0.0 && pose.scale.y != 0.0 && pose.scale.z != 0.0 &&
      var l := Local(pose, p);
      l.x == Coord(p, Horizontal(axes)) && l.y == Coord(p, Vertical(axes)) &&
      -l.z == EyeDistance - Coord(p, Depth(axes))
    ensures Horizontal(axes) != Vertical(axes) &&
            Horizontal(axes) != Depth(axes) && Vertical(axes) != Depth(axes)
  {
    match axes
    case XY => ScreenXY(g, p);
    case YZ => ScreenYZ(g, p);
    case XZ => ScreenXZ(g, p);
  }

  lemma ScreenXY(g: real, p: Vector3)
    ensures var pose := RenderedPose(g, XY);
      pose.scale == Vector3(1.0, 1.0, 1.0) &&
      Local(pose, p) == Vector3(p.x, p.y, p.z - EyeDistance)
  {
    var pose := RenderedPose(g, XY);
    var d := Sub(p, pose.position);
    var r := Rotate(pose.rotation, OnAxis(X, 1.0));
    var u := Rotate(pose.rotation, OnAxis(Y, 1.0));
    var b := Rotate(pose.rotation, OnAxis(Z, 1.0));
    assert r == Vector3(1.0, 0.0, 0.0) && u == Vector3(0.0, 1.0, 0.0) && b == Vector3(0.0, 0.0, 1.0);
    assert pose.scale == Vector3(1.0, 1.0, 1.0);
    assert d == Vector3(p.x, p.y, p.z - EyeDistance);
    var l := Local(pose, p);
    assert l.x == Dot(r, d) / 1.0 && l.y == Dot(u, d) / 1.0 && l.z == Dot(b, d) / 1.0;
  }

  /** The rotation `yz` pins sends the camera's x, y and z axes to the world's y, z and
      x axes. */
  lemma PinnedYzBasis(a: Axis)
    ensures Rotate(Turns(1, 1, 0), OnAxis(a, 1.0)) ==
            OnAxis(match a case X => Y case Y => Z case Z => X, 1.0)
  {
    match a
    case X =>
    case Y =>
    case Z =>
  }

  /** Camera-space coordinates under the pinned `yz` orientation, seen from the eye. */
  lemma PinnedYzLocal(p: Vector3)
    ensures CameraLocal(OnAxis(X, EyeDistance), Turns(1, 1, 0), Vector3(1.0, 1.0, 1.0), p) ==
            Vector3(p.y, p.z, p.x - EyeDistance)
  {
    var d := Sub(p, OnAxis(X, EyeDistance));
    PinnedYzBasis(X);
    PinnedYzBasis(Y);
    PinnedYzBasis(Z);
    DotOnAxis(Y, d);
    DotOnAxis(Z, d);
    DotOnAxis(X, d);
  }

  lemma ScreenYZ(g: real, p: Vector3)
    ensures var pose := RenderedPose(g, YZ);
      pose.scale == Vector3(1.0, 1.0, 1.0) &&
      Local(pose, p) == Vector3(p.y, p.z, p.x - EyeDistance)
  {
    PinnedYzLocal(p);
    assert Local(RenderedPose(g, YZ), p) ==
           CameraLocal(OnAxis(X, EyeDistance), Turns(1, 1, 0), Vector3(1.0, 1.0, 1.0), p);
  }

  lemma ScreenXZ(g: real, p: Vector3)
    ensures var pose := RenderedPose(g, XZ);
      pose.scale == Vector3(1.0, -1.0, 1.0) &&
      Local(pose, p) == Vector3(p.x, p.z, p.y - EyeDistance)
  {
    var pose := RenderedPose(g, XZ);
    var d := Sub(p, pose.position);
    var r := Rotate(pose.rotation, OnAxis(X, 1.0));
    var u := Rotate(pose.rotation, OnAxis(Y, 1.0));
    var b := Rotate(pose.rotation, OnAxis(Z, 1.0));
    assert r == Vector3(1.0, 0.0, 0.0) && u == Vector3(0.0, 0.0, -1.0) && b == Vector3(0.0, 1.0, 0.0);
    assert pose.scale == Vector3(1.0, -1.0, 1.0);
    assert d == Vector3(p.x, p.y - EyeDistance, p.z);
    var l := Local(pose, p);
    assert l.x == Dot(r, d) / 1.0 && l.y == Dot(u, d) / -1.0 && l.z == Dot(b, d) / 1.0;
  }

  /** Why `yz` pins its rotation every frame: with only the `lookAt` orientation, the
      screen would show -z left to right and y bottom to top instead of y and z. */
  lemma YzWithoutPinShowsMinusZ(g: real, p: Vector3)
    ensures var pose := InitialPose(g, YZ);
      pose.scale.x != 0.0 && pose.scale.y != 0.0 && pose.scale.z != 0.0 &&
      Local(pose, p).x == -p.z && Local(pose, p).y == p.y
  {
    var pose := InitialPose(g, YZ);
    var d := Sub(p, pose.position);
    var r := Rotate(pose.rotation, OnAxis(X, 1.0));
    var u := Rotate(pose.rotation, OnAxis(Y, 1.0));
    assert r == Vector3(0.0, 0.0, -1.0) && u == Vector3(0.0, 1.0, 0.0);
    assert pose.scale == Vector3(1.0, 1.0, 1.0);
    var l := Local(pose, p);
    assert l.x == Dot(r, d) / 1.0 && l.y == Dot(u, d) / 1.0;
  }

  /** Why `xz` flips its vertical axis: without the flip, z would grow downward. */
  lemma XzWithoutFlipShowsMinusZ(g: real, p: Vector3)
    ensures var pose := InitialPose(g, XZ).(scale := Vector3(1.0, 1.0, 1.0));
      Local(pose, p).x == p.x && Local(pose, p).y == -p.z
  {
    var pose := InitialPose(g, XZ).(scale := Vector3(1.0, 1.0, 1.0));
    var d := Sub(p, pose.position);
    var r := Rotate(pose.rotation, OnAxis(X, 1.0));
    var u := Rotate(pose.rotation, OnAxis(Y, 1.0));
    assert r == Vector3(1.0, 0.0, 0.0) && u == Vector3(0.0, 0.0, -1.0);
    var l := Local(pose, p);
    assert l.x == Dot(r, d) / 1.0 && l.y == Dot(u, d) / 1.0;
  }

  /** For a positive grid size the view box is symmetric and strictly wider than the
      grid, and the camera stands on the positive depth axis strictly inside its own
      clipping range. */
  lemma ViewBoxAndClipping(g: real, axes: Axes)
    requires g > 0.0
    ensures var pose := RenderedPose(g, axes);
      pose.left == -pose.right && pose.bottom == -pose.top &&
      pose.right > Grid(g, axes).size / 2.0 && pose.top > Grid(g, axes).size / 2.0 &&
      pose.position == OnAxis(Depth(axes), EyeDistance) &&
      pose.near < EyeDistance < pose.far
  {
  }

  /** A world point is inside the rendered view volume. */
  predicate InView(pose: Pose, p: Vector3)
    requires pose.scale.x != 0.0 && pose.scale.y != 0.0 && pose.scale.z != 0.0
  {
    var l := Local(pose, p);
    pose.left < l.x < pose.right && pose.bottom < l.y < pose.top &&
    pose.near <= -l.z <= pose.far
  }

  /** Every agent is visible: when the snapshot has a decade grid size, each agent whose
      marker box stays within `MAX_SAFE_INTEGER / 10` of the shown plane (its depth
      magnitude plus half the box is below that distance) has its whole box strictly
      inside the camera's view volume, selected or not. The box is axis-aligned and the
      camera's axes are world axes, so the box reaches half its size from its centre
      along each camera axis: across the screen, up the screen and in depth. */
  lemma MarkersInsideView(agents: seq<Agent>, selectedAgentIds: seq<string>, axes: Axes)
    requires GridSize(agents, axes).Decade?
    ensures var g := Pow10(GridSize(agents, axes).exponent);
      var pose := RenderedPose(g, axes);
      var ms := Markers(agents, selectedAgentIds, g);
      pose.scale.x != 0.0 && pose.scale.y != 0.0 && pose.scale.z != 0.0 &&
      forall i :: 0 <= i < |agents| && Abs(Coord(Position(agents[i]), Depth(axes))) + ms[i].size / 2.0 < EyeDistance ==>
        var l := Local(pose, ms[i].position);
        InView(pose, ms[i].position) &&
        pose.left < l.x - ms[i].size / 2.0 && l.x + ms[i].size / 2.0 < pose.right &&
        pose.bottom < l.y - ms[i].size / 2.0 && l.y + ms[i].size / 2.0 < pose.top &&
        pose.near < -l.z - ms[i].size / 2.0 && -l.z + ms[i].size / 2.0 < pose.far
  {
    var k := GridSize(agents, axes).exponent;
    var g := Pow10(k);
    var pose := RenderedPose(g, axes);
    var ms := Markers(agents, selectedAgentIds, g);
    GridSizeDegenerate(agents, axes);
    GridSizeLeastDecade(agents, axes);
    assert Covers(agents, axes, g);
    forall i | 0 <= i < |agents| && Abs(Coord(Position(agents[i]), Depth(axes))) + ms[i].size / 2.0 < EyeDistance
      ensures var l := Local(pose, ms[i].position);
        InView(pose, ms[i].position) &&
        pose.left < l.x - ms[i].size / 2.0 && l.x + ms[i].size / 2.0 < pose.right &&
        pose.bottom < l.y - ms[i].size / 2.0 && l.y + ms[i].size / 2.0 < pose.top &&
        pose.near < -l.z - ms[i].size / 2.0 && -l.z + ms[i].size / 2.0 < pose.far
    {
      var p := Position(agents[i]);
      assert ms[i].position == p;
      ScreenShowsPlane(g, axes, p);
      assert Abs(Coord(p, Horizontal(axes))) <= g && Abs(Coord(p, Vertical(axes))) <= g;
      assert 0.0 < ms[i].size <= g / 70.0;
    }
  }
}
