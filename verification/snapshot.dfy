/** The agent snapshot of the `functions.tsx` viewer: every poll response is turned into
    the list of agents the table and the canvas show. */
module Snapshot {
  import opened Wire
  import opened Seqs

  /** One row of the snapshot: the entry's key and kind, and its local translation. */
  datatype Agent = Agent(id: string, kind: string, x: real, y: real, z: real)

  function Position(a: Agent): Vector3
  {
    Vector3(a.x, a.y, a.z)
  }

  /** The agent an entry yields, if it passes the loose `!= null` filter on both `kind`
      and `transform`. */
  function AgentOf(entry: (string, RawAgent)): Option<Agent>
  {
    var (id, raw) := entry;
    if raw.kind.LooselyNonNull() && raw.transform.LooselyNonNull() then
      var v := raw.transform.value.localTranslation;
      Some(Agent(id, raw.kind.value, v.x, v.y, v.z))
    else None
  }

  /** `Object.entries(data.neighbors).filter(...).map(...)`. */
  function Normalize(response: Response): seq<Agent>
  {
    FilterMap(response.neighbors, AgentOf)
  }

  /** Whether an entry carries both a kind and a transform (neither missing nor null). */
  predicate Complete(raw: RawAgent)
  {
    raw.kind.Present? && raw.transform.Present?
  }

  /** An agent is in the snapshot exactly when some complete entry produced it: its id is
      the entry's key, its kind the entry's kind and x, y, z the entry's local
      translation. Incomplete entries contribute nothing. */
  lemma NormalizeMember(response: Response, a: Agent)
    ensures a in Normalize(response) <==>
      exists i :: 0 <= i < |response.neighbors| && Complete(response.neighbors[i].1) &&
        var (id, raw) := response.neighbors[i];
        a == Agent(id, raw.kind.value, raw.transform.value.localTranslation.x,
                   raw.transform.value.localTranslation.y, raw.transform.value.localTranslation.z)
  {
    FilterMapMember(response.neighbors, AgentOf, a);
  }

  /** The snapshot keeps entry order: two complete entries give two agents in the same
      relative order. */
  lemma NormalizeKeepsOrder(response: Response, i: nat, j: nat)
    requires i < j < |response.neighbors|
    requires Complete(response.neighbors[i].1) && Complete(response.neighbors[j].1)
    ensures exists p, q ::
              0 <= p < q < |Normalize(response)| &&
              Normalize(response)[p].id == response.neighbors[i].0 &&
              Normalize(response)[q].id == response.neighbors[j].0
  {
    var r := Normalize(response);
    FilterMapOrder(response.neighbors, AgentOf, i, j);
    var p, q :| 0 <= p < q < |r| && r[p] == AgentOf(response.neighbors[i]).value &&
                r[q] == AgentOf(response.neighbors[j]).value;
    assert r[p].id == response.neighbors[i].0;
  }

  /** Normalising the entries of two responses one after the other is normalising their
      concatenation: no sorting, no merging. */
  lemma NormalizeConcat(r1: Response, r2: Response, t: Json)
    ensures Normalize(Response(t, r1.neighbors + r2.neighbors)) == Normalize(r1) + Normalize(r2)
  {
    FilterMapAppend(r1.neighbors, r2.neighbors, AgentOf);
  }

  /** Ids in a snapshot are unique, because the keys of a JSON object are. */
  lemma NormalizeIdsUnique(response: Response)
    requires DistinctKeys(response.neighbors)
    ensures forall p, q :: 0 <= p < q < |Normalize(response)| ==>
      Normalize(response)[p].id != Normalize(response)[q].id
  {
    FilterMapDistinct(response.neighbors, AgentOf, (a: Agent) => a.id);
  }

  /** A snapshot is never longer than the response, and is as long exactly when every
      entry is complete. */
  lemma {:induction false} NormalizeLength(entries: seq<(string, RawAgent)>, t: Json)
    ensures |Normalize(Response(t, entries))| <= |entries|
    ensures |Normalize(Response(t, entries))| == |entries| <==>
      forall i :: 0 <= i < |entries| ==> Complete(entries[i].1)
  {
    if entries != [] {
      NormalizeLength(entries[1..], t);
      assert forall i :: 1 <= i < |entries| ==> entries[i] == entries[1..][i - 1];
      if forall i :: 1 <= i < |entries| ==> Complete(entries[i].1) {
        assert forall i :: 0 <= i < |entries[1..]| ==> Complete(entries[1..][i].1) by {
          forall i | 0 <= i < |entries[1..]| ensures Complete(entries[1..][i].1) {
            assert entries[1..][i] == entries[i + 1];
          }
        }
      }
    }
  }
}
