/** The one query shape the core uses: `Model.query.filter_by(...).first()`,
    read over a table kept in primary-key (insertion) order. */
module Queries {
  import opened Wrappers

  /** Index of the first row satisfying `p`, or None when no row does. */
  function FirstWhere<T>(rows: seq<T>, p: T -> bool): (r: Option<nat>)
    ensures r.Some? ==> r.value < |rows| && p(rows[r.value])
    ensures r.Some? ==> forall j :: 0 <= j < r.value ==> !p(rows[j])
    ensures r.None? <==> forall j :: 0 <= j < |rows| ==> !p(rows[j])
  {
    if rows == [] then None
    else if p(rows[0]) then Some(0)
    else match FirstWhere(rows[1..], p)
      case Some(i) => Some(i + 1)
      case None => None
  }
}
