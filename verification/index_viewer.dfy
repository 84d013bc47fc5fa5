/** The `index.tsx` viewer: a fixed top-down view of the x-y plane. Its snapshot keeps
    the whole transform, its canvas snaps the largest |x| or |y| DOWN to a power of ten
    `s`, draws a grid of half-width `10·s`, and places each agent's marker at the
    remapped point (x, z, -y). */
module IndexViewer {
  import opened Wire
  import opened Seqs
  import opened Decades
  import opened Space
  import opened AgentsCanvas
  import opened Camera

  /** The `Agent` class of this viewer. Its declared types promise a kind and a
      transform, but the `!` assertions that fill them check nothing at run time, so a
      missing property stays missing. */
  datatype Agent = Agent(id: string, kind: Field<string>, transform: Field<Transform>)

  /** The entry's agent, if it passes the strict `!== null` filter on `kind` and
      `transform`: only an explicit `null` is dropped. */
  function AgentOf(entry: (string, RawAgent)): Option<Agent>
  {
    var (id, raw) := entry;
    if raw.kind.StrictlyNonNull() && raw.transform.StrictlyNonNull() then
      Some(Agent(id, raw.kind, raw.transform))
    else None
  }

  /** `Object.entries(data.neighbors).filter(...).map(...)`, as written. */
  function Normalize(response: Response): seq<Agent>
  {
    FilterMap(response.neighbors, AgentOf)
  }

  /** An agent is in the snapshot exactly when some entry whose kind and transform are
      not `null` produced it, with that entry's key, kind and full transform; an entry
      whose kind or transform is missing altogether is kept. */
  lemma NormalizeMember(response: Response, a: Agent)
    ensures a in Normalize(response) <==>
      exists i :: 0 <= i < |response.neighbors| &&
        var (id, raw) := response.neighbors[i];
        !raw.kind.Null? && !raw.transform.Null? && a == Agent(id, raw.kind, raw.transform)
  {
    FilterMapMember(response.neighbors, AgentOf, a);
  }

  /** The snapshot keeps entry order. */
  lemma NormalizeConcat(r1: Response, r2: Response, t: Json)
    ensures Normalize(Response(t, r1.neighbors + r2.neighbors)) == Normalize(r1) + Normalize(r2)
  {
    FilterMapAppend(r1.neighbors, r2.neighbors, AgentOf);
  }

  /** The id of a row if the table's selection state marks it `true`. */
  function IdIfRowSelected(rowSelection: map<string, bool>): Agent -> Option<string>
  {
    (a: Agent) => if a.id in rowSelection && rowSelection[a.id] then Some(a.id) else None
  }

  /** `table.getSelectedRowModel().flatRows.map((row) => row.id)`: the ids of the rows
      currently shown whose selection state is `true`, in row order. */
  function SelectedRowIds(agents: seq<Agent>, rowSelection: map<string, bool>): seq<string>
  {
    FilterMap(agents, IdIfRowSelected(rowSelection))
  }

  /** An id is selected exactly when a row of the current snapshot has it and the
      selection state marks it `true`: when the effect runs, a selected id whose agent
      has left the snapshot is not reported. The effect re-runs only when the selection
      state or the table changes, so such an id stays reported until then. */
  lemma SelectedRowIdsMember(agents: seq<Agent>, rowSelection: map<string, bool>, id: string)
    ensures id in SelectedRowIds(agents, rowSelection) <==>
      (exists i :: 0 <= i < |agents| && agents[i].id == id) &&
      id in rowSelection && rowSelection[id]
  {
    FilterMapMember(agents, IdIfRowSelected(rowSelection), id);
    if (exists i :: 0 <= i < |agents| && agents[i].id == id) && id in rowSelection && rowSelection[id] {
      var i :| 0 <= i < |agents| && agents[i].id == id;
      assert IdIfRowSelected(rowSelection)(agents[i]) == Some(id);
    }
  }

  /** Selected ids come out in row order. */
  lemma SelectedRowIdsOrder(agents: seq<Agent>, rowSelection: map<string, bool>, i: nat, j: nat)
    requires i < j < |agents|
    requires agents[i].id in rowSelection && rowSelection[agents[i].id]
    requires agents[j].id in rowSelection && rowSelection[agents[j].id]
    ensures exists p, q :: 0 <= p < q < |SelectedRowIds(agents, rowSelection)| &&
              SelectedRowIds(agents, rowSelection)[p] == agents[i].id &&
              SelectedRowIds(agents, rowSelection)[q] == agents[j].id
  {
    var r := SelectedRowIds(agents, rowSelection);
    FilterMapOrder(agents, IdIfRowSelected(rowSelection), i, j);
    var p, q :| 0 <= p < q < |r| && r[p] == IdIfRowSelected(rowSelection)(agents[i]).value &&
                r[q] == IdIfRowSelected(rowSelection)(agents[j]).value;
  }

  /** Whether every agent has a transform to read the local translation from. */
  predicate Readable(agents: seq<Agent>)
  {
    forall i :: 0 <= i < |agents| ==> agents[i].transform.Present?
  }

  function Translation(a: Agent): Vector3
    requires a.transform.Present?
  {
    a.transform.value.localTranslation
  }

  /** The arguments spread into `Math.max`: every |x|, then every |y|. */
  function XYValues(agents: seq<Agent>): seq<real>
    requires Readable(agents)
  {
    seq(|agents|, i requires 0 <= i < |agents| => Abs(Translation(agents[i]).x)) +
    seq(|agents|, i requires 0 <= i < |agents| => Abs(Translation(agents[i]).y))
  }

  /** What evaluating `maxAbsXYe` does: throw a `TypeError` when some agent has no
      transform, or produce a value. */
  datatype Evaluation = Thrown | Value(extent: Extent)

  /** `maxAbsXYe = 10 ** Math.floor(Math.log10(Math.max(...))))`: `NaN` for an empty
      snapshot, `0` when every |x| and |y| is zero, otherwise a power of ten. */
  function MaxAbsXYe(agents: seq<Agent>): Evaluation
  {
    if !Readable(agents) then Thrown
    else
      var vs := XYValues(agents);
      if |vs| == 0 then Value(NotANumber)
      else
        var m := Max(vs);
        if m == 0.0 then Value(Zero) else Value(Decade(FloorLog10(m)))
  }

  lemma XYValuesMember(agents: seq<Agent>, v: real)
    requires Readable(agents)
    ensures v in XYValues(agents) <==>
      exists i :: 0 <= i < |agents| &&
        (v == Abs(Translation(agents[i]).x) || v == Abs(Translation(agents[i]).y))
  {
    var xs := seq(|agents|, i requires 0 <= i < |agents| => Abs(Translation(agents[i]).x));
    var ys := seq(|agents|, i requires 0 <= i < |agents| => Abs(Translation(agents[i]).y));
    assert XYValues(agents) == xs + ys;
    if exists i :: 0 <= i < |agents| &&
         (v == Abs(Translation(agents[i]).x) || v == Abs(Translation(agents[i]).y)) {
      var i :| 0 <= i < |agents| &&
        (v == Abs(Translation(agents[i]).x) || v == Abs(Translation(agents[i]).y));
      assert xs[i] == Abs(Translation(agents[i]).x) && ys[i] == Abs(Translation(agents[i]).y);
    }
  }

  /** The scale is the greatest power of ten `s = 10^k` with `s <= m < 10·s`, `m` the
      largest |x| or |y|: a power `10^j` fits under `m` exactly when `j <= k`. */
  lemma ScaleGreatestDecade(agents: seq<Agent>)
    requires Readable(agents)
    requires exists i :: 0 <= i < |agents| && (Translation(agents[i]).x != 0.0 || Translation(agents[i]).y != 0.0)
    ensures MaxAbsXYe(agents).Value? && MaxAbsXYe(agents).extent.Decade?
    ensures var k := MaxAbsXYe(agents).extent.exponent; var m := Max(XYValues(agents));
      Pow10(k) <= m < 10.0 * Pow10(k) &&
      forall j :: Pow10(j) <= m <==> j <= k
  {
    var i :| 0 <= i < |agents| && (Translation(agents[i]).x != 0.0 || Translation(agents[i]).y != 0.0);
    var vs := XYValues(agents);
    var w := if Translation(agents[i]).x != 0.0 then Abs(Translation(agents[i]).x) else Abs(Translation(agents[i]).y);
    XYValuesMember(agents, w);
    var m := Max(vs);
    var k := FloorLog10(m);
    Pow10Step(k);
    forall j ensures Pow10(j) <= m <==> j <= k {
      FloorLog10Greatest(m, j);
    }
  }

  /** The z coordinate never affects the scale. */
  lemma ScaleIgnoresZ(a1: seq<Agent>, a2: seq<Agent>)
    requires |a1| == |a2| && Readable(a1) && Readable(a2)
    requires forall i :: 0 <= i < |a1| ==>
      Translation(a1[i]).x == Translation(a2[i]).x && Translation(a1[i]).y == Translation(a2[i]).y
    ensures MaxAbsXYe(a1) == MaxAbsXYe(a2)
  {
    assert XYValues(a1) == XYValues(a2);
  }

  /** The grid helper of this viewer: full width `20·s` in 20 divisions, unrotated. */
  function IndexGrid(s: real): (grid: GridHelper)
    ensures grid.divisions > 0 && grid.size / 2.0 == 10.0 * s
  {
    GridHelper(s * 20.0, 20, Turns(0, 0, 0))
  }

  /** `(x, y, z) ↦ (x, z, -y)`: where a marker is placed. */
  function MarkerPosition(v: Vector3): Vector3
  {
    Vector3(v.x, v.z, -v.y)
  }

  /** The agent coordinates a marker position stands for. */
  function AgentPosition(w: Vector3): Vector3
  {
    Vector3(w.x, -w.z, w.y)
  }

  /** The remap is a bijection on points, `AgentPosition` is its inverse, and it keeps x. */
  lemma MarkerPositionBijective(v: Vector3, w: Vector3)
    ensures AgentPosition(MarkerPosition(v)) == v
    ensures MarkerPosition(AgentPosition(w)) == w
    ensures MarkerPosition(v).x == v.x
    ensures MarkerPosition(v) == MarkerPosition(w) <==> v == w
  {
    if MarkerPosition(v) == MarkerPosition(w) {
      assert AgentPosition(MarkerPosition(v)) == AgentPosition(MarkerPosition(w));
    }
  }

  /** The marker of one readable agent for the selected ids and scale `s`. */
  function Marker(agent: Agent, selectedAgentIds: seq<string>, s: real): Box
    requires agent.transform.Present?
  {
    var w := MarkerPosition(Translation(agent));
    if agent.id in selectedAgentIds then Box(agent.id, w, s / 7.0, Red)
    else Box(agent.id, w, s / 10.0, Black)
  }

  function Markers(agents: seq<Agent>, selectedAgentIds: seq<string>, s: real): seq<Box>
    requires Readable(agents)
  {
    seq(|agents|, i requires 0 <= i < |agents| => Marker(agents[i], selectedAgentIds, s))
  }

  /** A marker is red exactly when its agent is selected, is placed at the remapped
      translation, and for a positive scale a red marker is strictly larger than a black
      one. */
  lemma MarkersHighlightSelection(agents: seq<Agent>, selectedAgentIds: seq<string>, s: real)
    requires Readable(agents)
    ensures var ms := Markers(agents, selectedAgentIds, s);
      |ms| == |agents| &&
      forall i :: 0 <= i < |agents| ==>
        ms[i].key == agents[i].id && AgentPosition(ms[i].position) == Translation(agents[i]) &&
        (ms[i].color == Red <==> agents[i].id in selectedAgentIds)
    ensures var ms := Markers(agents, selectedAgentIds, s);
      s > 0.0 ==>
        forall i, j ::
          0 <= i < |agents| && 0 <= j < |agents| && ms[i].color == Red && ms[j].color == Black ==>
          ms[i].size > ms[j].size
  {
    forall i | 0 <= i < |agents| {
      MarkerPositionBijective(Translation(agents[i]), Translation(agents[i]));
    }
  }

  /** `new THREE.OrthographicCamera`'s default near plane. */
  const DefaultNear: real := 0.1

  /** The camera this viewer renders with: a box of half-width `11·s`, near plane at the
      library default, far plane at `MAX_SAFE_INTEGER`, standing at height
      `MAX_SAFE_INTEGER / 10` on the y axis, turned toward the origin by the map
      controls, which aim the camera at their target, the origin. */
  function IndexPose(s: real): Pose
  {
    Pose(-s * 11.0, s * 11.0, s * 11.0, -s * 11.0, DefaultNear, MaxSafeInteger,
         Vector3(0.0, MaxSafeInteger / 10.0, 0.0), LookAtOriginFrom(Y), Vector3(1.0, 1.0, 1.0))
  }

  /** Seen from that camera, the marker of an agent at (x, y, z) appears at screen
      (x, y) and at distance `MAX_SAFE_INTEGER / 10 - z` in front of the camera: the
      remap turns the top-down view into the x-y plane, the right way round. */
  lemma ScreenShowsXY(s: real, v: Vector3)
    ensures var pose := IndexPose(s); var l := Local(pose, MarkerPosition(v));
      l.x == v.x && l.y == v.y && -l.z == EyeDistance - v.z
  {
    var pose := IndexPose(s);
    var w := MarkerPosition(v);
    var d := Sub(w, pose.position);
    var r := Rotate(pose.rotation, OnAxis(X, 1.0));
    var u := Rotate(pose.rotation, OnAxis(Y, 1.0));
    var b := Rotate(pose.rotation, OnAxis(Z, 1.0));
    assert r == Vector3(1.0, 0.0, 0.0) && u == Vector3(0.0, 0.0, -1.0) && b == Vector3(0.0, 1.0, 0.0);
    assert d == Vector3(v.x, v.z - EyeDistance, -v.y);
    var l := Local(pose, w);
    assert l.x == Dot(r, d) / 1.0 && l.y == Dot(u, d) / 1.0 && l.z == Dot(b, d) / 1.0;
  }

  /** For a decade scale `s`, the grid's half-width `10·s` strictly exceeds every |x|
      and |y|, the view bound `11·s` strictly exceeds the grid's half-width, and the
      camera stands below its far plane. Every marker whose box lies within the clipping
      range (its top, z plus half the box, stays more than the near distance 0.1 below the
      eye, and its bottom stays above the far plane at `MAX_SAFE_INTEGER` below the eye)
      lies wholly inside the view volume: across the screen, up the screen, and in depth
      between the near and the far plane. */
  lemma MarkersInsideView(agents: seq<Agent>, selectedAgentIds: seq<string>)
    requires Readable(agents)
    requires MaxAbsXYe(agents).Value? && MaxAbsXYe(agents).extent.Decade?
    ensures var s := Pow10(MaxAbsXYe(agents).extent.exponent); var pose := IndexPose(s);
      (forall i :: 0 <= i < |agents| ==>
        Abs(Translation(agents[i]).x) < IndexGrid(s).size / 2.0 &&
        Abs(Translation(agents[i]).y) < IndexGrid(s).size / 2.0) &&
      IndexGrid(s).size / 2.0 < pose.right &&
      pose.position.y < pose.far
    ensures var s := Pow10(MaxAbsXYe(agents).extent.exponent); var pose := IndexPose(s);
      var ms := Markers(agents, selectedAgentIds, s);
      forall i :: (0 <= i < |agents| && Translation(agents[i]).z + ms[i].size / 2.0 < EyeDistance - DefaultNear &&
                   ms[i].size / 2.0 - Translation(agents[i]).z < MaxSafeInteger - EyeDistance) ==>
        var l := Local(pose, ms[i].position);
        InView(pose, ms[i].position) &&
        pose.left < l.x - ms[i].size / 2.0 && l.x + ms[i].size / 2.0 < pose.right &&
        pose.bottom < l.y - ms[i].size / 2.0 && l.y + ms[i].size / 2.0 < pose.top &&
        pose.near < -l.z - ms[i].size / 2.0 && -l.z + ms[i].size / 2.0 < pose.far
  {
    var k := MaxAbsXYe(agents).extent.exponent;
    var s := Pow10(k);
    var vs := XYValues(agents);
    var m := Max(vs);
    Pow10Step(k);
    assert m < 10.0 * s;
    forall i | 0 <= i < |agents|
      ensures Abs(Translation(agents[i]).x) < 10.0 * s && Abs(Translation(agents[i]).y) < 10.0 * s
    {
      XYValuesMember(agents, Abs(Translation(agents[i]).x));
      XYValuesMember(agents, Abs(Translation(agents[i]).y));
    }
    var pose := IndexPose(s);
    var ms := Markers(agents, selectedAgentIds, s);
    forall i | 0 <= i < |agents| && Translation(agents[i]).z + ms[i].size / 2.0 < EyeDistance - DefaultNear &&
        ms[i].size / 2.0 - Translation(agents[i]).z < MaxSafeInteger - EyeDistance
      ensures var l := Local(pose, ms[i].position);
        InView(pose, ms[i].position) &&
        pose.left < l.x - ms[i].size / 2.0 && l.x + ms[i].size / 2.0 < pose.right &&
        pose.bottom < l.y - ms[i].size / 2.0 && l.y + ms[i].size / 2.0 < pose.top &&
        pose.near < -l.z - ms[i].size / 2.0 && -l.z + ms[i].size / 2.0 < pose.far
    {
      var v := Translation(agents[i]);
      assert ms[i].position == MarkerPosition(v);
      ScreenShowsXY(s, v);
      assert 0.0 < ms[i].size <= s / 7.0;
    }
  }

  /** As written, an entry that has a kind but no `transform` property at all passes
      the strict filter, and computing the scale then reads `.localTranslation` of
      `undefined` and throws. */
  lemma MissingTransformThrows()
    ensures var raw := RawAgent(Absent, Absent, Present("k"), Absent, Absent, Absent);
      var agents := Normalize(Response(Json("{}"), [("a", raw)]));
      agents == [Agent("a", Present("k"), Absent)] && MaxAbsXYe(agents) == Thrown
  {
    var raw := RawAgent(Absent, Absent, Present("k"), Absent, Absent, Absent);
    var entries := [("a", raw)];
    assert entries[1..] == [];
    assert FilterMap(entries, AgentOf) == [Agent("a", Present("k"), Absent)];
  }

  /** The evidently intended filter: drop an entry whose kind or transform is `null` or
      missing (`!= null`), as the other viewer does. */
  function CheckedAgentOf(entry: (string, RawAgent)): Option<Agent>
  {
    var (id, raw) := entry;
    if raw.kind.LooselyNonNull() && raw.transform.LooselyNonNull() then
      Some(Agent(id, raw.kind, raw.transform))
    else None
  }

  function CheckedNormalize(response: Response): seq<Agent>
  {
    FilterMap(response.neighbors, CheckedAgentOf)
  }

  /** With the intended filter every agent has a kind and a transform, so the scale is
      always computed and never throws; and the intended filter keeps exactly the
      entries of the written one that have both properties. */
  lemma CheckedNormalizeNeverThrows(response: Response)
    ensures Readable(CheckedNormalize(response))
    ensures forall i :: 0 <= i < |CheckedNormalize(response)| ==> CheckedNormalize(response)[i].kind.Present?
    ensures MaxAbsXYe(CheckedNormalize(response)) != Thrown
    ensures forall a :: a in CheckedNormalize(response) <==>
              a in Normalize(response) && a.kind.Present? && a.transform.Present?
  {
    var agents := CheckedNormalize(response);
    forall i | 0 <= i < |agents| ensures agents[i].transform.Present? && agents[i].kind.Present? {
      assert agents[i] in agents;
    }
    forall a ensures a in agents <==> a in Normalize(response) && a.kind.Present? && a.transform.Present? {
      FilterMapMember(response.neighbors, CheckedAgentOf, a);
      FilterMapMember(response.neighbors, AgentOf, a);
      if a in Normalize(response) && a.kind.Present? && a.transform.Present? {
        var i :| 0 <= i < |response.neighbors| && AgentOf(response.neighbors[i]) == Some(a);
        assert CheckedAgentOf(response.neighbors[i]) == Some(a);
      }
    }
  }
}
