/** The canvas of the `functions.tsx` viewer: the decade-snapped grid size for the
    chosen projection plane, the reference grid's orientation, and one box marker per
    agent, styled by selection. */
module AgentsCanvas {
  import opened Wire
  import opened Seqs
  import opened Decades
  import opened Space
  import opened Snapshot

  /** The projection plane the user picks: `'xy' | 'yz' | 'xz'`. */
  datatype Axes = XY | YZ | XZ

  /** The axis a projection hides, orthogonal to the plane it shows. */
  function Depth(axes: Axes): Axis
  {
    match axes
    case XY => Z
    case YZ => X
    case XZ => Y
  }

  /** Whether the grid size looks at axis `c`: `['xy', 'xz'].includes(axes)` for x,
      `['xy', 'yz']` for y and `['yz', 'xz']` for z. */
  predicate Examines(axes: Axes, c: Axis)
  {
    match c
    case X => axes == XY || axes == XZ
    case Y => axes == XY || axes == YZ
    case Z => axes == YZ || axes == XZ
  }

  /** `agents.map((agent) => Math.abs(agent.c))`. */
  function AbsCoords(agents: seq<Agent>, c: Axis): seq<real>
  {
    seq(|agents|, i requires 0 <= i < |agents| => Abs(Coord(Position(agents[i]), c)))
  }

  /** The arguments spread into `Math.max`: the absolute x values, then y, then z, each
      only if the projection examines that axis. */
  function PlaneValues(agents: seq<Agent>, axes: Axes): seq<real>
  {
    (if Examines(axes, X) then AbsCoords(agents, X) else []) +
    (if Examines(axes, Y) then AbsCoords(agents, Y) else []) +
    (if Examines(axes, Z) then AbsCoords(agents, Z) else [])
  }

  /** The value `10 ** Math.ceil(Math.log10(Math.max(...)))` takes: `NaN` when there is
      nothing to take the maximum of (`Math.max()` is -Infinity), `0` when the maximum
      is 0 (log10 gives -Infinity), and otherwise a power of ten. */
  datatype Extent = NotANumber | Zero | Decade(exponent: int)

  /** `gridSize` in `AgentsCanvas`. */
  function GridSize(agents: seq<Agent>, axes: Axes): Extent
  {
    var vs := PlaneValues(agents, axes);
    if |vs| == 0 then NotANumber
    else
      var m := Max(vs);
      if m == 0.0 then Zero else Decade(CeilLog10(m))
  }

  /** Every shown coordinate of every agent has magnitude at most `g`. */
  ghost predicate Covers(agents: seq<Agent>, axes: Axes, g: real)
  {
    forall i, c :: 0 <= i < |agents| && c != Depth(axes) ==> Abs(Coord(Position(agents[i]), c)) <= g
  }

  /** The values spread into `Math.max` are exactly the magnitudes of the two shown
      coordinates of the agents; the depth coordinate is never among them. */
  lemma PlaneValuesMember(agents: seq<Agent>, axes: Axes, v: real)
    ensures v in PlaneValues(agents, axes) <==>
      exists i, c :: 0 <= i < |agents| && c != Depth(axes) && v == Abs(Coord(Position(agents[i]), c))
  {
    var vs := PlaneValues(agents, axes);
    if v in vs {
      var c :| Examines(axes, c) && v in AbsCoords(agents, c);
      var i :| 0 <= i < |agents| && v == AbsCoords(agents, c)[i];
      assert c != Depth(axes);
    }
    if exists i, c :: 0 <= i < |agents| && c != Depth(axes) && v == Abs(Coord(Position(agents[i]), c)) {
      var i, c :| 0 <= i < |agents| && c != Depth(axes) && v == Abs(Coord(Position(agents[i]), c));
      assert AbsCoords(agents, c)[i] == v;
      assert Examines(axes, c);
    }
  }

  /** The grid size is `NaN` exactly for an empty snapshot and `0` exactly when every
      shown coordinate is zero. */
  lemma GridSizeDegenerate(agents: seq<Agent>, axes: Axes)
    ensures GridSize(agents, axes) == NotANumber <==> agents == []
    ensures GridSize(agents, axes) == Zero <==> agents != [] && Covers(agents, axes, 0.0)
  {
    var vs := PlaneValues(agents, axes);
    assert |vs| == 2 * |agents|;
    if agents != [] {
      var m := Max(vs);
      PlaneValuesMember(agents, axes, m);
      if m == 0.0 {
        forall i, c | 0 <= i < |agents| && c != Depth(axes)
          ensures Abs(Coord(Position(agents[i]), c)) <= 0.0
        {
          PlaneValuesMember(agents, axes, Abs(Coord(Position(agents[i]), c)));
        }
      }
    }
  }

  /** For a snapshot with some non-zero shown coordinate, the grid size is the least
      power of ten that bounds every shown coordinate: `10^k` with
      `10^(k-1) < m <= 10^k` for the plane maximum `m`, and a power `10^j` bounds them
      all exactly when `k <= j`. */
  lemma GridSizeLeastDecade(agents: seq<Agent>, axes: Axes)
    requires agents != [] && !Covers(agents, axes, 0.0)
    ensures GridSize(agents, axes).Decade?
    ensures var k := GridSize(agents, axes).exponent; var m := Max(PlaneValues(agents, axes));
      Pow10(k - 1) < m <= Pow10(k)
    ensures forall j :: Covers(agents, axes, Pow10(j)) <==> GridSize(agents, axes).exponent <= j
  {
    GridSizeDegenerate(agents, axes);
    var vs := PlaneValues(agents, axes);
    var m := Max(vs);
    var k := CeilLog10(m);
    forall j ensures Covers(agents, axes, Pow10(j)) <==> k <= j {
      CeilLog10Least(m, j);
      if k <= j {
        forall i, c | 0 <= i < |agents| && c != Depth(axes)
          ensures Abs(Coord(Position(agents[i]), c)) <= Pow10(j)
        {
          PlaneValuesMember(agents, axes, Abs(Coord(Position(agents[i]), c)));
        }
      } else {
        PlaneValuesMember(agents, axes, m);
        var i, c :| 0 <= i < |agents| && c != Depth(axes) && m == Abs(Coord(Position(agents[i]), c));
      }
    }
  }

  /** The depth coordinate never affects the grid size: two snapshots that agree on the
      shown coordinates of every agent get the same grid size. */
  lemma GridSizeIgnoresDepth(a1: seq<Agent>, a2: seq<Agent>, axes: Axes)
    requires |a1| == |a2|
    requires forall i, c :: 0 <= i < |a1| && c != Depth(axes) ==>
               Coord(Position(a1[i]), c) == Coord(Position(a2[i]), c)
    ensures GridSize(a1, axes) == GridSize(a2, axes)
  {
    forall c | Examines(axes, c) ensures AbsCoords(a1, c) == AbsCoords(a2, c) {
      assert c != Depth(axes);
    }
    assert PlaneValues(a1, axes) == PlaneValues(a2, axes);
  }

  /** Adding agents never shrinks the grid: if every agent of a non-empty snapshot is
      also in a second one, the second's grid size is defined and at least as large. */
  lemma GridSizeMonotone(small: seq<Agent>, big: seq<Agent>, axes: Axes)
    requires small != []
    requires forall a :: a in small ==> a in big
    ensures GridSize(big, axes) != NotANumber
    ensures GridSize(small, axes).Decade? ==>
      GridSize(big, axes).Decade? && GridSize(small, axes).exponent <= GridSize(big, axes).exponent
  {
    assert small[0] in big;
    var vs, vb := PlaneValues(small, axes), PlaneValues(big, axes);
    forall v | v in vs ensures v in vb {
      PlaneValuesMember(small, axes, v);
      var i, c :| 0 <= i < |small| && c != Depth(axes) && v == Abs(Coord(Position(small[i]), c));
      assert small[i] in big;
      var i' :| 0 <= i' < |big| && big[i'] == small[i];
      PlaneValuesMember(big, axes, v);
    }
    GridSizeDegenerate(big, axes);
    MaxSubset(vs, vb);
    if GridSize(small, axes).Decade? {
      CeilLog10Monotone(Max(vs), Max(vb));
    }
  }

  /** Two agents at (3, 4, 0) and (50, 1, 0): the plane maximum is 50 for both `xy` and
      `xz`, so the grid size is 100 for both. */
  lemma GridSizeExample()
    ensures var agents := [Agent("a", "k", 3.0, 4.0, 0.0), Agent("b", "k", 50.0, 1.0, 0.0)];
      GridSize(agents, XY) == Decade(2) && GridSize(agents, XZ) == Decade(2)
  {
    var agents := [Agent("a", "k", 3.0, 4.0, 0.0), Agent("b", "k", 50.0, 1.0, 0.0)];
    var xy, xz := PlaneValues(agents, XY), PlaneValues(agents, XZ);
    assert xy == [3.0, 50.0, 4.0, 1.0];
    assert xz == [3.0, 50.0, 0.0, 0.0];
    assert Max(xy) == 50.0 by {
      assert Max(xy[3..]) == 1.0;
      assert xy[2..][1..] == xy[3..];
      assert Max(xy[2..]) == 4.0;
      assert xy[1..][1..] == xy[2..];
      assert Max(xy[1..]) == 50.0;
    }
    assert Max(xz) == 50.0 by {
      assert Max(xz[3..]) == 0.0;
      assert xz[2..][1..] == xz[3..];
      assert Max(xz[2..]) == 0.0;
      assert xz[1..][1..] == xz[2..];
      assert Max(xz[1..]) == 50.0;
    }
    assert Ten(1) == 10.0 && Ten(2) == 100.0;
    CeilLog10Unique(50.0, 2);
  }

  /** `girdRoation`: the Euler rotation given to the grid helper. */
  function GridRotation(axes: Axes): Turns
  {
    match axes
    case XY => Turns(1, 0, 0)
    case YZ => Turns(0, 0, 1)
    case XZ => Turns(0, 0, 0)
  }

  /** A three.js grid helper lies in its local x-z plane. Rotated by `GridRotation`, its
      normal (local +y) lies along the depth axis and both of its in-plane directions
      have no depth component: the grid lies in the shown plane. */
  lemma GridLiesInShownPlane(axes: Axes)
    ensures var n := Rotate(GridRotation(axes), OnAxis(Y, 1.0));
      n == OnAxis(Depth(axes), 1.0) || n == OnAxis(Depth(axes), -1.0)
    ensures Coord(Rotate(GridRotation(axes), OnAxis(X, 1.0)), Depth(axes)) == 0.0
    ensures Coord(Rotate(GridRotation(axes), OnAxis(Z, 1.0)), Depth(axes)) == 0.0
  {
    match axes
    case XY =>
    case YZ =>
    case XZ =>
  }

  /** The `<gridHelper args={[size, divisions, ...]} rotation={...}>` element. */
  datatype GridHelper = GridHelper(size: real, divisions: nat, rotation: Turns)

  /** The grid drawn for grid size `g`: full width `2·g` in 20 divisions. */
  function Grid(g: real, axes: Axes): (grid: GridHelper)
    ensures grid.divisions == 20 && grid.rotation == GridRotation(axes)
    ensures grid.size / 2.0 == g && grid.size / grid.divisions as real == g / 10.0
  {
    GridHelper(g * 2.0, 20, GridRotation(axes))
  }

  datatype Color = Red | Black

  /** A `<Box key position args>` with its material colour; `size` is each of its three
      edge lengths. */
  datatype Box = Box(key: string, position: Vector3, size: real, color: Color)

  /** The marker of one agent for the selected ids and grid size `g`. */
  function Marker(agent: Agent, selectedAgentIds: seq<string>, g: real): Box
  {
    if agent.id in selectedAgentIds then Box(agent.id, Position(agent), g / 70.0, Red)
    else Box(agent.id, Position(agent), g / 100.0, Black)
  }

  /** `props.agents.map(...)` inside the canvas. */
  function Markers(agents: seq<Agent>, selectedAgentIds: seq<string>, g: real): seq<Box>
  {
    seq(|agents|, i requires 0 <= i < |agents| => Marker(agents[i], selectedAgentIds, g))
  }

  /** One marker per agent, keyed by its id and placed at its raw position; it is red
      exactly when the agent is selected, and for a positive grid size every red marker
      is strictly larger than every black one. */
  lemma MarkersHighlightSelection(agents: seq<Agent>, selectedAgentIds: seq<string>, g: real)
    ensures var ms := Markers(agents, selectedAgentIds, g);
      |ms| == |agents| &&
      forall i :: 0 <= i < |agents| ==>
        ms[i].key == agents[i].id && ms[i].position == Position(agents[i]) &&
        (ms[i].color == Red <==> agents[i].id in selectedAgentIds)
    ensures var ms := Markers(agents, selectedAgentIds, g);
      g > 0.0 ==>
        forall i, j ::
          0 <= i < |agents| && 0 <= j < |agents| && ms[i].color == Red && ms[j].color == Black ==>
          ms[i].size > ms[j].size
  {
  }

  /** Dropping an id from the selection turns that agent's marker black and leaves every
      other marker as it was. */
  lemma DeselectRemovesHighlight(agents: seq<Agent>, selectedAgentIds: seq<string>, id: string, g: real)
    ensures var before := Markers(agents, selectedAgentIds, g);
      var after := Markers(agents, Filter(selectedAgentIds, id), g);
      |after| == |before| &&
      forall i :: 0 <= i < |agents| ==>
        if agents[i].id == id then after[i] == Box(id, Position(agents[i]), g / 100.0, Black)
        else after[i] == before[i]
  {
    forall i | 0 <= i < |agents| && agents[i].id != id
      ensures agents[i].id in Filter(selectedAgentIds, id) <==> agents[i].id in selectedAgentIds
    {
      FilterMapMember(selectedAgentIds, s => if s == id then None else Some(s), agents[i].id);
      if agents[i].id in selectedAgentIds {
        var k :| 0 <= k < |selectedAgentIds| && selectedAgentIds[k] == agents[i].id;
      }
    }
    forall i | 0 <= i < |agents| && agents[i].id == id
      ensures id !in Filter(selectedAgentIds, id)
    {
      FilterMapMember(selectedAgentIds, s => if s == id then None else Some(s), id);
    }
  }

  /** `ids` without `id`. */
  function Filter(ids: seq<string>, id: string): seq<string>
  {
    FilterMap(ids, s => if s == id then None else Some(s))
  }
}
