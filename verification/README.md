# arktwin viewer — a Dafny model

The arktwin viewer is a browser page. Once a second it polls the edge for the
agents near it. It lists them in a selectable table and draws them in an
orthographic 3-D canvas. There are two variants of the page:

- `functions.tsx` shows a chosen projection plane (`xy`, `yz` or `xz`). It
  snaps the grid up to the next power of ten and poses its camera step by step.
- `index.tsx` shows a fixed top-down x-y view. It snaps the scale down to a
  power of ten and remaps each agent's position to `(x, z, -y)`.

This project models both pages' data path. A poll response becomes a snapshot
of agents. Row selection becomes the list of selected ids. The snapshot gives
the decade-snapped grid size, the grid, one box marker per agent and the
camera pose. The properties proved include:

- what the snapshot keeps and in what order;
- that the grid size is the least (or greatest) power of ten that fits;
- that the camera shows the chosen plane the right way round;
- that every marker box that stays within the eye distance of the shown plane
  (for `index.tsx`, within its near and far planes) lies wholly inside the view
  volume, across the screen, up it and in depth.

Modules:

- `Wire` — the poll response (`types.ts`). A property can be missing,
  explicitly `null`, or present; `!= null` and `!== null` differ on the first.
- `Seqs` — `filter(...).map(...)` as one generic `FilterMap`, and `Math.max`.
- `Decades` — exact powers of ten and the two decade snaps `⌈log10⌉` and
  `⌊log10⌋`, each characterised by its integer exponent.
- `Space` — axes, Euler rotations in whole quarter turns (three.js `XYZ`
  order), `lookAt` of the origin from a positive axis, and world-to-camera
  coordinates.
- `Snapshot`, `AgentsTable`, `AgentsCanvas`, `Camera` — `functions.tsx`. The
  camera is a class whose methods change its fields, as the three.js object is
  changed in place. `InitialPose`, `FramePose` and `RenderedPose` specify it.
- `IndexViewer` — `index.tsx`.

Numbers are exact reals. The degenerate grid sizes are modelled as values of
their own (`Extent`). An empty snapshot gives `NaN`, because `Math.max()` is
`-Infinity`. A snapshot whose shown coordinates are all zero gives `0`. The
design intent is a positive default extent for an empty snapshot, but the code
does not do that, and the model follows the code.

## Model

| member | source | states |
|---|---|---|
| Seqs.Max | arktwin/viewer/src/functions.tsx:179-189 | `Math.max` of a non-empty list is one of its arguments and no argument exceeds it |
| Seqs.MaxSubset | arktwin/viewer/src/functions.tsx:179-189 | the maximum of a list is at most the maximum of any list containing all its elements |
| Decades.CeilLog10 | arktwin/viewer/src/functions.tsx:175-192 | `Math.ceil(Math.log10(m))` for `m > 0` is the exponent `k` with `10^(k-1) < m <= 10^k` |
| Decades.CeilLog10Unique | arktwin/viewer/src/functions.tsx:175-192 | that bracket determines the exponent: `10^(k-1) < m <= 10^k` iff `k` is the ceiling exponent |
| Decades.CeilLog10Least | arktwin/viewer/src/functions.tsx:175-192 | `m <= 10^k` iff `k` is at least the ceiling exponent, so the snap is the least covering decade |
| Decades.CeilLog10Monotone | arktwin/viewer/src/functions.tsx:175-192 | a larger magnitude never gets a smaller decade |
| Decades.FloorLog10 | arktwin/viewer/src/index.tsx:161-171 | `Math.floor(Math.log10(m))` for `m > 0` is the exponent `k` with `10^k <= m < 10^(k+1)` |
| Decades.FloorLog10Greatest | arktwin/viewer/src/index.tsx:161-171 | `10^k <= m` iff `k` is at most the floor exponent, so the snap is the greatest decade under `m` |
| Decades.FloorVersusCeil | arktwin/viewer/src/index.tsx:161-171 | the two snaps agree exactly on a power of ten and otherwise differ by one decade |
| Decades.Pow10Order | arktwin/viewer/src/functions.tsx:175-176 | comparing two powers of ten `Math.pow(10, k)` is comparing their exponents, strictly and non-strictly |
| Space.LookAtOriginFrom | arktwin/viewer/src/functions.tsx:254 | the orientation `lookAt(0, 0, 0)` gives a camera on a positive axis (also lines 258 and 262); its properties are stated by `Space.LookAtFacesOrigin` |
| Space.LookAtFacesOrigin | arktwin/viewer/src/functions.tsx:251-264 | after `lookAt(0, 0, 0)` from a positive axis, the camera's back direction points to the eye and its right direction is `up × back`: for an eye off the y axis its up stays world +y, and for the eye on +y its right is world +x |
| Snapshot.Normalize | arktwin/viewer/src/functions.tsx:40-45 | the snapshot of a poll response: the loose `!= null` filter on kind and transform, then one agent per kept entry; stated by the `Snapshot.Normalize*` lemmas |
| Snapshot.NormalizeMember | arktwin/viewer/src/functions.tsx:39-46 | an agent is in the snapshot iff some entry with both `kind` and `transform` present produced it, with the entry's key, kind and local translation |
| Snapshot.NormalizeKeepsOrder | arktwin/viewer/src/functions.tsx:40-45 | two complete entries give two agents in the same relative order |
| Snapshot.NormalizeConcat | arktwin/viewer/src/functions.tsx:40-45 | normalising concatenated entries is concatenating the snapshots: no sorting, no merging |
| Snapshot.NormalizeIdsUnique | arktwin/viewer/src/types.ts:3 | agent ids are pairwise distinct, since the neighbours object has distinct keys |
| Snapshot.NormalizeLength | arktwin/viewer/src/functions.tsx:41 | the snapshot is never longer than the response, and as long iff every entry is complete |
| AgentsTable.SelectedIds | arktwin/viewer/src/functions.tsx:158-160 | the selected ids derived from the selection state; stated by the `AgentsTable.SelectedIds*` lemmas |
| AgentsTable.SelectedIdsMember | arktwin/viewer/src/functions.tsx:156-162 | an id is selected iff the row selection state maps it to `true` |
| AgentsTable.SelectedIdsOrder | arktwin/viewer/src/functions.tsx:158-160 | selected ids keep the order of the selection state's entries |
| AgentsTable.SelectedIdsDistinct | arktwin/viewer/src/functions.tsx:158-160 | no id is selected twice |
| AgentsTable.DeselectRow | arktwin/viewer/src/functions.tsx:149-162 | setting one row to `false` deselects that id and leaves every other id's status as it was |
| AgentsTable.RemoveRow | arktwin/viewer/src/functions.tsx:149-162 | dropping one row's key from the selection state deselects that id and leaves every other id's status as it was |
| AgentsCanvas.PlaneValues | arktwin/viewer/src/functions.tsx:179-189 | the arguments spread into `Math.max` for the projection; stated by `AgentsCanvas.PlaneValuesMember` |
| AgentsCanvas.GridSize | arktwin/viewer/src/functions.tsx:173-194 | `gridSize`, as `NaN`, `0` or a decade; stated by `AgentsCanvas.GridSizeDegenerate` and `AgentsCanvas.GridSizeLeastDecade` |
| AgentsCanvas.PlaneValuesMember | arktwin/viewer/src/functions.tsx:179-189 | the values given to `Math.max` are exactly the magnitudes of the shown coordinates; the depth coordinate never appears |
| AgentsCanvas.GridSizeDegenerate | arktwin/viewer/src/functions.tsx:173-194 | the grid size is `NaN` iff the snapshot is empty, and `0` iff it is non-empty and every shown coordinate is zero |
| AgentsCanvas.GridSizeLeastDecade | arktwin/viewer/src/functions.tsx:173-194 | otherwise it is `10^k` with `10^(k-1) < m <= 10^k`, and `10^j` bounds every shown coordinate iff `k <= j` |
| AgentsCanvas.GridSizeIgnoresDepth | arktwin/viewer/src/functions.tsx:180-188 | snapshots that agree on the shown coordinates get the same grid size |
| AgentsCanvas.GridSizeMonotone | arktwin/viewer/src/functions.tsx:173-194 | adding agents to a non-empty snapshot never shrinks the grid and never makes it `NaN` |
| AgentsCanvas.GridSizeExample | arktwin/viewer/src/functions.tsx:173-194 | agents at (3, 4, 0) and (50, 1, 0) give grid size 100 for both `xy` and `xz` |
| AgentsCanvas.GridRotation | arktwin/viewer/src/functions.tsx:196-205 | `girdRoation` as quarter turns; stated by `AgentsCanvas.GridLiesInShownPlane` |
| AgentsCanvas.GridLiesInShownPlane | arktwin/viewer/src/functions.tsx:196-205 | the rotated grid's normal lies along the depth axis and its two in-plane directions have no depth component |
| AgentsCanvas.Grid | arktwin/viewer/src/functions.tsx:212 | the grid has 20 divisions and the projection's `GridRotation`; its half-width is the grid size, and each division is a tenth of it |
| AgentsCanvas.Marker | arktwin/viewer/src/functions.tsx:214-230 | one agent's box: size `g/70` and red if selected, `g/100` and black otherwise |
| AgentsCanvas.Markers | arktwin/viewer/src/functions.tsx:213-231 | the boxes of all agents; stated by `AgentsCanvas.MarkersHighlightSelection` |
| AgentsCanvas.MarkersHighlightSelection | arktwin/viewer/src/functions.tsx:213-231 | one marker per agent, keyed by id and placed at its position, red iff selected; for a positive grid size every red marker is larger than every black one |
| AgentsCanvas.DeselectRemovesHighlight | arktwin/viewer/src/functions.tsx:213-231 | dropping an id from the selection turns exactly that agent's marker into the small black one |
| Camera.OrthographicCamera.constructor | arktwin/viewer/src/functions.tsx:243-250 | the new camera has the given view box and clipping range, at the origin, unrotated, unscaled |
| Camera.OrthographicCamera.SetPosition | arktwin/viewer/src/functions.tsx:253 | only the position changes, to the given point |
| Camera.OrthographicCamera.LookAtOrigin | arktwin/viewer/src/functions.tsx:254 | only the rotation changes, to the orientation facing the origin from the camera's axis |
| Camera.OrthographicCamera.SetScaleY | arktwin/viewer/src/functions.tsx:263 | only the vertical scale changes |
| Camera.OrthographicCamera.SetRotation | arktwin/viewer/src/functions.tsx:275 | only the rotation changes, to the given Euler angles |
| Camera.InitialPose | arktwin/viewer/src/functions.tsx:242-267 | the pose the effect gives the new camera; `Camera.MakeCamera` is proved to reach it |
| Camera.FramePose | arktwin/viewer/src/functions.tsx:269-280 | the pose after the per-frame callback; `Camera.OnFrame` is proved to reach it |
| Camera.MakeCamera | arktwin/viewer/src/functions.tsx:242-267 | the effect builds a fresh camera whose pose is `InitialPose`: box `±1.1·g`, clipping `[0, MAX_SAFE_INTEGER/5]`, on the depth axis at `MAX_SAFE_INTEGER/10`, facing the origin, flipped for `xz` only |
| Camera.OnFrame | arktwin/viewer/src/functions.tsx:269-280 | each frame pins the rotation to (π/2, π/2, 0) for `yz` and leaves the camera alone otherwise |
| Camera.RenderedPose | arktwin/viewer/src/functions.tsx:269-280 | pinning once more does not change the rendered pose |
| Camera.ScreenShowsPlane | arktwin/viewer/src/functions.tsx:242-280 | the rendered camera maps a point to screen (first, second shown coordinate) at distance `MAX_SAFE_INTEGER/10 −` depth, for all three projections |
| Camera.PinnedYzBasis | arktwin/viewer/src/functions.tsx:275 | the pinned `yz` rotation sends the camera's x, y and z axes to the world's y, z and x axes |
| Camera.PinnedYzLocal | arktwin/viewer/src/functions.tsx:256-258 | seen from the `yz` eye with the pinned rotation, a point's camera coordinates are (y, z, x − eye distance) |
| Camera.YzWithoutPinShowsMinusZ | arktwin/viewer/src/functions.tsx:274-275 | without the per-frame pin, `yz` would show −z left to right, which is why the pin exists |
| Camera.XzWithoutFlipShowsMinusZ | arktwin/viewer/src/functions.tsx:263 | without `scale.y = -1`, `xz` would show −z bottom to top |
| Camera.ViewBoxAndClipping | arktwin/viewer/src/functions.tsx:243-250 | for a positive grid size the box is symmetric and wider than the grid, and the eye lies strictly inside the clipping range |
| Camera.MarkersInsideView | arktwin/viewer/src/functions.tsx:207-265 | for a decade grid size, every marker whose depth magnitude plus half its size is below the eye distance lies strictly inside the view box across and up the screen, and strictly between the near and far planes in depth |
| IndexViewer.Normalize | arktwin/viewer/src/index.tsx:37-39 | the snapshot as written, with the strict `!== null` filter; stated by `IndexViewer.NormalizeMember` |
| IndexViewer.NormalizeMember | arktwin/viewer/src/index.tsx:36-40 | an agent is in the snapshot iff some entry whose kind and transform are not `null` produced it; missing properties pass |
| IndexViewer.NormalizeConcat | arktwin/viewer/src/index.tsx:37-39 | the snapshot keeps entry order with no merging |
| IndexViewer.SelectedRowIds | arktwin/viewer/src/index.tsx:151 | the ids of the selected rows; stated by `IndexViewer.SelectedRowIdsMember` |
| IndexViewer.SelectedRowIdsMember | arktwin/viewer/src/index.tsx:150-152 | an id is selected iff a current row has it and the selection state marks it `true` |
| IndexViewer.SelectedRowIdsOrder | arktwin/viewer/src/index.tsx:150-152 | selected ids come out in row order |
| IndexViewer.MaxAbsXYe | arktwin/viewer/src/index.tsx:161-171 | `maxAbsXYe`: it throws when an agent has no transform, and otherwise gives `NaN`, `0` or a decade; stated by `IndexViewer.ScaleGreatestDecade` and `IndexViewer.MissingTransformThrows` |
| IndexViewer.XYValuesMember | arktwin/viewer/src/index.tsx:165-168 | the values given to `Math.max` are exactly the magnitudes of the agents' x and y |
| IndexViewer.ScaleGreatestDecade | arktwin/viewer/src/index.tsx:161-171 | with some non-zero x or y, the scale is `10^k` with `10^k <= m < 10^(k+1)`, and `10^j <= m` iff `j <= k` |
| IndexViewer.ScaleIgnoresZ | arktwin/viewer/src/index.tsx:165-168 | snapshots that agree on x and y get the same scale |
| IndexViewer.IndexGrid | arktwin/viewer/src/index.tsx:186 | the grid's half-width is ten times the scale |
| IndexViewer.MarkerPosition | arktwin/viewer/src/index.tsx:192 | where a marker is placed (also line 200); stated by `IndexViewer.MarkerPositionBijective` |
| IndexViewer.MarkerPositionBijective | arktwin/viewer/src/index.tsx:188-200 | the remap `(x, y, z) ↦ (x, z, −y)` is a bijection with inverse `(u, v, w) ↦ (u, −w, v)` and keeps x |
| IndexViewer.Markers | arktwin/viewer/src/index.tsx:187-205 | the boxes of all agents: size `s/7` and red if selected, `s/10` and black otherwise; stated by `IndexViewer.MarkersHighlightSelection` |
| IndexViewer.MarkersHighlightSelection | arktwin/viewer/src/index.tsx:187-206 | one marker per agent at the remapped position, red iff selected, and red markers larger than black ones for a positive scale |
| IndexViewer.IndexPose | arktwin/viewer/src/index.tsx:175-184 | the rendered camera; stated by `IndexViewer.ScreenShowsXY` and `IndexViewer.MarkersInsideView` |
| IndexViewer.ScreenShowsXY | arktwin/viewer/src/index.tsx:175-192 | from the camera on +y facing the origin, the marker of (x, y, z) appears at screen (x, y), at distance eye height − z |
| IndexViewer.MarkersInsideView | arktwin/viewer/src/index.tsx:161-206 | every agent's x and y have magnitude below the grid's half-width `10·s`, which is below the view bound `11·s`; every marker whose box lies within the clipping range (z plus half its size below eye height − near, half its size minus z below `MAX_SAFE_INTEGER` − eye height) lies strictly inside the view box across and up the screen, and strictly between the near and far planes in depth |
| IndexViewer.MissingTransformThrows | arktwin/viewer/src/index.tsx:38 | an entry with a kind and no `transform` property is kept, and computing the scale then throws |
| IndexViewer.CheckedNormalize | arktwin/viewer/src/functions.tsx:41 | the snapshot with the loose `!= null` filter that `index.tsx` evidently intends; stated by `IndexViewer.CheckedNormalizeNeverThrows` |
| IndexViewer.CheckedNormalizeNeverThrows | arktwin/viewer/src/index.tsx:38 | with the loose `!= null` filter every agent has a kind and a transform, the scale never throws, and the kept agents are exactly those of the strict filter that have both |

## Left out

- Polling: `setInterval`, `fetch`, JSON parsing and the request body are I/O. A response enters the model as a value.
- The `neighborsNumber` input (`RequestInput` in `index.tsx`) only changes the request body. It is I/O.
- React state, `useMemo`, `useEffect` dependencies and `createRoot` are not modelled. Each model function is one evaluation of the memoised value or effect body.
- The table widget is not modelled: its columns, and how clicks change the selection state. The selection state enters the model as a value. In `functions.tsx` it is a list of entries in `Object.entries` order; in `index.tsx` it is a map.
- `Object.entries` puts integer-like keys first. The model takes the entries in the order given.
- Floating point: coordinates, `Math.log10` and `Math.pow` are exact reals and integer exponents. Rounding of `log10` near an exact power of ten is not modelled.
- AgentsCanvas.GridSize: exact reals hide overflow. A shown coordinate above 1e308 snaps up to `10^309`, which `Math.pow` gives as `Infinity`; the model gives a finite decade.
- IndexViewer.MaxAbsXYe: exact reals hide underflow. For the smallest subnormal magnitude (about 5e-324) the floor snap is `10^-324`, which `Math.pow` gives as `0`; the model gives a positive decade.
- `NaN` and `0` grid sizes are `Extent` values, but the camera and the grid are stated for a real grid size `g`. What three.js draws with `NaN` bounds is not modelled.
- three.js is modelled only as far as the viewers use it. Rendering, lights, materials and `MapControls` panning and zooming are left out. `lookAt` is modelled only for an eye on a positive axis. For an eye on +y the library nudges the sight line by 1e-4; the model uses the exact quarter turn that nudge tends to.
- Camera.MakeCamera: the call that makes the camera the default (`setThreeState`) is not modelled.
- IndexViewer.IndexPose: drei's `OrthographicCamera` and `MapControls` are not part of this model. The camera is taken to have three.js's default near plane 0.1 and no scale, facing the origin as `MapControls` makes it.
- `eslint.config.js` and `vite.config.ts` are build configuration.

## Findings

| source | as written | input that shows it | evidently intended | confidence | as-written member | corrected member |
|---|---|---|---|---|---|---|
| arktwin/viewer/src/index.tsx:38 | `agent.kind !== null && agent.transform !== null` keeps an entry whose `transform` property is missing. The canvas then reads `agent.transform.localTranslation` of `undefined` (index.tsx:166) and throws a `TypeError` | a response whose `neighbors` is `{"a": {"kind": "k"}}` (the type allows an absent `transform`, types.ts:7) | the loose `!= null` test of functions.tsx:41, which drops missing and `null` alike | not executed; it also depends on whether the edge omits or nulls a missing transform | IndexViewer.MissingTransformThrows | IndexViewer.CheckedNormalizeNeverThrows |

The canvas lemmas of `IndexViewer` are stated for snapshots in which every agent
has a transform. `CheckedNormalize` always produces such a snapshot.
