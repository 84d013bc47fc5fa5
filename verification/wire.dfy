/** The JSON shape of the `/api/edge/neighbors/_query` response, as the viewer declares
    it. An optional property of the response can be missing from the object, present
    with the value `null`, or present with a value; the two viewers test for these
    differently, so the three are kept apart. */
module Wire {

  /** An optional JSON property: missing (`undefined`), `null`, or given. */
  datatype Field<+T> = Absent | Null | Present(value: T) {
    /** The loose test `v != null`: fails on both `null` and `undefined`. */
    predicate LooselyNonNull() { Present? }
    /** The strict test `v !== null`: fails on `null` only. */
    predicate StrictlyNonNull() { !Null? }
  }

  /** A JSON value the viewer never looks inside (`object` in the declared types). */
  datatype Json = Json(text: string)

  /** Exact reals stand in for JSON numbers; floating-point rounding is not modelled. */
  datatype Vector3 = Vector3(x: real, y: real, z: real)

  datatype Transform = Transform(
    parentAgentId: Field<string>,
    globalScale: Vector3,
    localRotation: Json,
    localTranslation: Vector3,
    localTranslationSpeed: Field<Vector3>)

  /** One neighbour record; every property is optional. */
  datatype RawAgent = RawAgent(
    transform: Field<Transform>,
    nearestDistance: Field<real>,
    kind: Field<string>,
    status: Field<Json>,
    assets: Field<Json>,
    change: Field<string>)

  /** `neighbors` is a JSON object; it is given here as its list of `[key, value]`
      entries in `Object.entries` order, which has each key once. */
  datatype Response = Response(timestamp: Json, neighbors: seq<(string, RawAgent)>)

  /** The keys of an entry list are pairwise distinct, as those of a JSON object are. */
  predicate DistinctKeys<V>(entries: seq<(string, V)>)
  {
    forall i, j :: 0 <= i < j < |entries| ==> entries[i].0 != entries[j].0
  }
}
