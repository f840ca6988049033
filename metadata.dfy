/**
  The `metadata` table of a container: (name, value) rows in the order the
  query returns them. Both readers of the table let a later row with the same
  name overwrite an earlier one, so what a name maps to is its last row's value.
 */
module Metadata {

  datatype MetaRow = MetaRow(name: string, value: string)

  /** Some row carries this name. */
  predicate HasName(rows: seq<MetaRow>, k: string)
  {
    exists i :: 0 <= i < |rows| && rows[i].name == k
  }

  /** The value of the last row with this name. */
  function LastValue(rows: seq<MetaRow>, k: string): (v: string)
    requires HasName(rows, k)
    ensures exists i ::
              && 0 <= i < |rows| && rows[i].name == k && rows[i].value == v
              && forall j :: i < j < |rows| ==> rows[j].name != k
  {
    var last := rows[|rows| - 1];
    if last.name == k then last.value
    else
      var init := rows[..|rows| - 1];
      assert HasName(init, k) by {
        var i :| 0 <= i < |rows| && rows[i].name == k;
        assert init[i].name == k;
      }
      var v := LastValue(init, k);
      var i :| && 0 <= i < |init| && init[i].name == k && init[i].value == v
               && forall j :: i < j < |init| ==> init[j].name != k;
      assert rows[i] == init[i];
      v
  }

  /** A name occurs in all the rows exactly when it occurs in all but the last, or in the last. */
  lemma HasNameSnoc(rows: seq<MetaRow>, k: string)
    requires rows != []
    ensures HasName(rows, k) <==> HasName(rows[..|rows| - 1], k) || rows[|rows| - 1].name == k
  {
    var init := rows[..|rows| - 1];
    if HasName(rows, k) && rows[|rows| - 1].name != k {
      var i :| 0 <= i < |rows| && rows[i].name == k;
      assert init[i].name == k;
    }
    if HasName(init, k) {
      var i :| 0 <= i < |init| && init[i].name == k;
      assert rows[i].name == k;
    }
  }
}
