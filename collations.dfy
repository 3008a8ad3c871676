/**
 * Sort orders ("collations") of a relational operator's output, as the
 * planner describes them: a sequence of field collations, each naming one
 * output column and a direction.
 */
module Collations {

  /** The sort directions a field collation may carry. */
  datatype Direction = Ascending | StrictlyAscending | Descending | StrictlyDescending | Clustered

  /** One sort key: an output column index and its direction. */
  datatype FieldCollation = FieldCollation(fieldIndex: nat, direction: Direction)

  /** A collation: the sort keys, most significant first. */
  type Collation = seq<FieldCollation>

  /** The field collation built from a column index alone: ascending by default. */
  function DefaultField(fieldIndex: nat): FieldCollation
  {
    FieldCollation(fieldIndex, Ascending)
  }

  /**
   * The fields for columns 0, 1, ..., n - 1 in that order, each with the
   * default direction: the stream `range(0, n)` mapped through DefaultField.
   */
  function AscendingFields(n: nat): (fields: Collation)
    ensures |fields| == n
    ensures forall i :: 0 <= i < n ==> fields[i] == DefaultField(i)
  {
    if n == 0 then [] else AscendingFields(n - 1) + [DefaultField(n - 1)]
  }

  /** Calcite's satisfaction rule: a provided order meets a required one when the required one is a prefix of it. */
  predicate Satisfies(provided: Collation, required: Collation)
  {
    |required| <= |provided| && provided[..|required|] == required
  }

  /** The column indices a collation sorts on. */
  function Columns(c: Collation): (cols: set<nat>)
    ensures forall i :: 0 <= i < |c| ==> c[i].fieldIndex in cols
    ensures forall k :: k in cols ==> exists i :: 0 <= i < |c| && c[i].fieldIndex == k
  {
    set i | 0 <= i < |c| :: c[i].fieldIndex
  }
}
