/**
 * A repository table is modelled as the sequence of its rows in table order (the order `findAll`
 * returns them in). The derived queries of the repositories (`findBy...`, `existsBy...`,
 * `findAllBy...`) become the three searches below.
 */
module Tables {
  import opened Wrappers

  /** Index of the first row that satisfies `matches`, if any. */
  function FindIndex<T>(rows: seq<T>, matches: T -> bool): (r: Option<nat>)
    ensures r.Some? ==> r.value < |rows| && matches(rows[r.value])
    ensures r.Some? ==> forall j :: 0 <= j < r.value ==> !matches(rows[j])
    ensures r.None? <==> forall j :: 0 <= j < |rows| ==> !matches(rows[j])
    decreases |rows|
  {
    if rows == [] then None
    else if matches(rows[0]) then Some(0)
    else match FindIndex(rows[1..], matches)
      case None => None
      case Some(i) => Some(i + 1)
  }

  /** The first row that satisfies `matches` (a `findBy...` query returning one row or null). */
  function FindFirst<T>(rows: seq<T>, matches: T -> bool): (r: Option<T>)
    ensures r.Some? ==> r.value in rows && matches(r.value)
    ensures r.None? <==> forall j :: 0 <= j < |rows| ==> !matches(rows[j])
  {
    match FindIndex(rows, matches)
    case None => None
    case Some(i) => Some(rows[i])
  }

  /** Two searches that agree row by row find the same index. */
  lemma FindIndexAgrees<T, U>(rows: seq<T>, matches: T -> bool, rows': seq<U>, matches': U -> bool)
    requires |rows| == |rows'|
    requires forall j :: 0 <= j < |rows| ==> (matches(rows[j]) <==> matches'(rows'[j]))
    ensures FindIndex(rows, matches) == FindIndex(rows', matches')
  {
  }

  /** All rows that satisfy `matches`, in table order (a `findAllBy...` query). */
  function Filter<T>(rows: seq<T>, matches: T -> bool): (r: seq<T>)
    ensures |r| <= |rows|
    ensures forall j :: 0 <= j < |r| ==> r[j] in rows && matches(r[j])
    ensures forall j :: 0 <= j < |rows| && matches(rows[j]) ==> rows[j] in r
    decreases |rows|
  {
    if rows == [] then []
    else (if matches(rows[0]) then [rows[0]] else []) + Filter(rows[1..], matches)
  }

  /** A row added at the end of the table comes last in the result, when it matches. */
  lemma {:induction false} FilterAppend<T>(rows: seq<T>, x: T, matches: T -> bool)
    ensures Filter(rows + [x], matches) == Filter(rows, matches) + (if matches(x) then [x] else [])
    decreases |rows|
  {
    if rows != [] {
      assert (rows + [x])[1..] == rows[1..] + [x];
      FilterAppend(rows[1..], x, matches);
    }
  }
}
