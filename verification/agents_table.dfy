/** The selection hand-off of the `functions.tsx` table: the table widget keeps a row
    selection state (row id to `true`/`false`), and the viewer derives from it the list
    of selected agent ids that the canvas highlights. */
module AgentsTable {
  import opened Seqs
  import opened Wire

  /** The selected id a row-selection entry yields, if its value is `true`. */
  function IdIfSelected(row: (string, bool)): Option<string>
  {
    if row.1 then Some(row.0) else None
  }

  /** `Object.entries(rowSelection).filter(([_key, value]) => value).map(([key]) => key)`;
      `rowSelection` is given as its entries in `Object.entries` order. */
  function SelectedIds(rowSelection: seq<(string, bool)>): seq<string>
  {
    FilterMap(rowSelection, IdIfSelected)
  }

  /** An id is selected exactly when the selection state maps it to `true`. */
  lemma SelectedIdsMember(rowSelection: seq<(string, bool)>, id: string)
    ensures id in SelectedIds(rowSelection) <==>
      exists i :: 0 <= i < |rowSelection| && rowSelection[i] == (id, true)
  {
    FilterMapMember(rowSelection, IdIfSelected, id);
    if exists i :: 0 <= i < |rowSelection| && IdIfSelected(rowSelection[i]) == Some(id) {
      var i :| 0 <= i < |rowSelection| && IdIfSelected(rowSelection[i]) == Some(id);
      assert rowSelection[i] == (id, true);
    }
    if exists i :: 0 <= i < |rowSelection| && rowSelection[i] == (id, true) {
      var i :| 0 <= i < |rowSelection| && rowSelection[i] == (id, true);
      assert IdIfSelected(rowSelection[i]) == Some(id);
    }
  }

  /** Selected ids come out in the order of the selection state's entries. */
  lemma SelectedIdsOrder(rowSelection: seq<(string, bool)>, i: nat, j: nat)
    requires i < j < |rowSelection| && rowSelection[i].1 && rowSelection[j].1
    ensures exists p, q :: 0 <= p < q < |SelectedIds(rowSelection)| &&
              SelectedIds(rowSelection)[p] == rowSelection[i].0 &&
              SelectedIds(rowSelection)[q] == rowSelection[j].0
  {
    var r := SelectedIds(rowSelection);
    FilterMapOrder(rowSelection, IdIfSelected, i, j);
    var p, q :| 0 <= p < q < |r| && r[p] == IdIfSelected(rowSelection[i]).value &&
                r[q] == IdIfSelected(rowSelection[j]).value;
  }

  /** No id is listed twice, since the selection state is an object keyed by row id. */
  lemma SelectedIdsDistinct(rowSelection: seq<(string, bool)>)
    requires DistinctKeys(rowSelection)
    ensures forall p, q :: 0 <= p < q < |SelectedIds(rowSelection)| ==>
              SelectedIds(rowSelection)[p] != SelectedIds(rowSelection)[q]
  {
    FilterMapDistinct(rowSelection, IdIfSelected, (id: string) => id);
  }

  /** Setting a row's value to `false` deselects that id and only that id. This is the
      transition that stores `false`; `RemoveRow` covers the one that drops the key. */
  lemma DeselectRow(rowSelection: seq<(string, bool)>, k: nat, other: string)
    requires k < |rowSelection| && DistinctKeys(rowSelection)
    requires other != rowSelection[k].0
    ensures rowSelection[k].0 !in SelectedIds(rowSelection[k := (rowSelection[k].0, false)])
    ensures other in SelectedIds(rowSelection[k := (rowSelection[k].0, false)]) <==>
            other in SelectedIds(rowSelection)
  {
    var id := rowSelection[k].0;
    var after := rowSelection[k := (id, false)];
    SelectedIdsMember(after, id);
    SelectedIdsMember(after, other);
    SelectedIdsMember(rowSelection, other);
    if exists i :: 0 <= i < |rowSelection| && rowSelection[i] == (other, true) {
      var i :| 0 <= i < |rowSelection| && rowSelection[i] == (other, true);
      assert after[i] == (other, true);
    }
  }

  /** Dropping a row's key from the selection state, as the table widget does when a
      row is deselected, also deselects that id and only that id. */
  lemma RemoveRow(rowSelection: seq<(string, bool)>, k: nat, other: string)
    requires k < |rowSelection| && DistinctKeys(rowSelection)
    requires other != rowSelection[k].0
    ensures rowSelection[k].0 !in SelectedIds(rowSelection[..k] + rowSelection[k + 1..])
    ensures other in SelectedIds(rowSelection[..k] + rowSelection[k + 1..]) <==>
            other in SelectedIds(rowSelection)
  {
    var id := rowSelection[k].0;
    var after := rowSelection[..k] + rowSelection[k + 1..];
    assert forall i :: 0 <= i < |after| ==>
      after[i] == rowSelection[if i < k then i else i + 1];
    SelectedIdsMember(after, id);
    SelectedIdsMember(after, other);
    SelectedIdsMember(rowSelection, other);
    forall i | 0 <= i < |after| ensures after[i].0 != id {
      var j := if i < k then i else i + 1;
      assert after[i] == rowSelection[j] && j != k;
    }
    if exists i :: 0 <= i < |rowSelection| && rowSelection[i] == (other, true) {
      var i :| 0 <= i < |rowSelection| && rowSelection[i] == (other, true);
      assert i != k;
      var j := if i < k then i else i - 1;
      assert after[j] == (other, true);
    }
  }
}
