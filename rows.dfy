/**
 * Row values of the CRUD table and the JavaScript array operations the
 * table applies to its loaded rows: locating a row by structural equality
 * (`Array.prototype.find` over `JSON.stringify` images, then `indexOf`),
 * `rows[k] = v` and `rows.splice(k, 1)`, with JavaScript's treatment of a
 * negative index kept.
 */
module Rows {

  datatype Option<+T> = None | Some(value: T)

  /** A JSON scalar as the backend sends it. */
  datatype Value = Null | Bool(b: bool) | Num(n: int) | Str(s: string)

  /**
   * A row is an ordered list of (field, value) pairs: two rows have the same
   * `JSON.stringify` image exactly when they list the same fields with the
   * same values in the same order, which is equality of these lists.
   */
  type Row = seq<(string, Value)>

  /** The error slot's contents: a rejected backend call, or the TypeError a
      settle step throws when the row array was never loaded. */
  datatype Error = BackendError(detail: Value) | ItemsUndefined

  /**
   * `rows.indexOf(rows.find(x => JSON.stringify(x) === JSON.stringify(target)))`:
   * the first index holding a row equal to `target`, or -1 when there is none.
   */
  function FirstIndexOf(rows: seq<Row>, target: Row): (i: int)
    ensures -1 <= i < |rows|
    ensures i == -1 <==> target !in rows
    ensures 0 <= i ==> rows[i] == target
    ensures forall j :: 0 <= j < i ==> rows[j] != target
  {
    if |rows| == 0 then -1
    else if rows[0] == target then 0
    else
      var j := FirstIndexOf(rows[1..], target);
      if j == -1 then -1
      else j + 1
  }

  /** Where `splice(start, 1)` starts on an array of length `len`: a negative
      start counts back from the end and is clamped at 0, a start past the
      end is clamped to the length. */
  function SpliceStart(len: nat, start: int): (k: nat)
    ensures k <= len
    ensures 0 <= start <= len ==> k == start
    ensures -(len as int) <= start < 0 ==> k == len + start
    ensures start < -(len as int) ==> k == 0
    ensures start > len ==> k == len
  {
    if start < 0 then (if len + start < 0 then 0 else len + start)
    else if start > len then len
    else start
  }

  /** The array left by `s.splice(start, 1)`. */
  function SplicedOne<T>(s: seq<T>, start: int): (r: seq<T>)
    ensures var k := SpliceStart(|s|, start);
      && |r| == (if k < |s| then |s| - 1 else |s|)
      && (forall j :: 0 <= j < k && j < |r| ==> r[j] == s[j])
      && (forall j :: k <= j < |r| ==> r[j] == s[j + 1])
  {
    var k := SpliceStart(|s|, start);
    if k < |s| then s[..k] + s[k + 1..] else s
  }

  /** The elements left by `s[k] = v` for an integer `k` below the length: a
      negative `k` only sets a property of the array object, not an element. */
  function AssignedAt<T>(s: seq<T>, k: int, v: T): (r: seq<T>)
    requires k < |s|
    ensures |r| == |s|
    ensures 0 <= k ==> r[k] == v
    ensures forall j :: 0 <= j < |s| && j != k ==> r[j] == s[j]
  {
    if k < 0 then s else s[k := v]
  }

  /** Among equal rows the first one is found: a later duplicate is never
      the located slot. */
  lemma FirstEqualRowWins(rows: seq<Row>, i: nat, j: nat)
    requires i < j < |rows| && rows[i] == rows[j]
    ensures FirstIndexOf(rows, rows[j]) <= i
  {
  }

  /** `splice(-1, 1)` on a non-empty array drops its last element. */
  lemma SpliceMinusOneDropsLast<T>(s: seq<T>)
    requires |s| > 0
    ensures SplicedOne(s, -1) == s[..|s| - 1]
  {
  }

  /** Splicing at the index of an element removes that element and only it. */
  lemma {:induction false} SpliceInRangeRemovesIt<T>(s: seq<T>, k: int)
    requires 0 <= k < |s|
    ensures SplicedOne(s, k) == s[..k] + s[k + 1..]
    ensures multiset(SplicedOne(s, k)) + multiset{s[k]} == multiset(s)
  {
    assert s == s[..k] + [s[k]] + s[k + 1..];
  }

  /** Removing at the located index from a non-empty array always takes away
      exactly one row: the first row equal to the target when there is one,
      the last row otherwise. */
  lemma RemoveLocatedRow(rows: seq<Row>, target: Row)
    requires |rows| > 0
    ensures var i := FirstIndexOf(rows, target);
      var r := SplicedOne(rows, i);
      && |r| == |rows| - 1
      && (target in rows ==> r == rows[..i] + rows[i + 1..] && multiset(r) + multiset{target} == multiset(rows))
      && (target !in rows ==> r == rows[..|rows| - 1])
  {
    var i := FirstIndexOf(rows, target);
    if target in rows {
      SpliceInRangeRemovesIt(rows, i);
    } else {
      SpliceMinusOneDropsLast(rows);
    }
  }

  /** Overwriting one element trades that element for the new one. */
  lemma {:induction false} UpdateTradesElement<T>(s: seq<T>, i: nat, v: T)
    requires i < |s|
    ensures multiset(s[i := v]) + multiset{s[i]} == multiset(s) + multiset{v}
  {
    assert s == s[..i] + [s[i]] + s[i + 1..];
    assert s[i := v] == s[..i] + [v] + s[i + 1..];
  }

  /** Writing at the located index replaces the first row equal to the target
      and nothing else; when no row equals it the elements stay as they are. */
  lemma OverwriteLocatedRow(rows: seq<Row>, target: Row, v: Row)
    ensures var i := FirstIndexOf(rows, target);
      var r := AssignedAt(rows, i, v);
      && (target !in rows ==> r == rows)
      && (target in rows ==> r == rows[i := v] && multiset(r) + multiset{target} == multiset(rows) + multiset{v})
  {
    var i := FirstIndexOf(rows, target);
    if target in rows {
      UpdateTradesElement(rows, i, v);
    }
  }
}
