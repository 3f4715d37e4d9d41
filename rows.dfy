/**
 * Tables as the query builder sees them: a table is a sequence of rows, a
 * row maps column names to values, and a column a row does not hold reads
 * as SQL NULL. Queries are built from a filter, an ordering by one column
 * and a window (offset and limit).
 */
module Rows {
  import opened Common

  /** A column value. Dates are milliseconds since the epoch; JSON columns hold their text. */
  datatype Value = Null | Bool(b: bool) | Num(n: int) | Str(s: string) | Time(t: int) | Json(text: string)

  type Row = map<string, Value>

  /** The value of a column, NULL when the row does not hold it. */
  function Get(row: Row, col: string): (v: Value)
    ensures col in row ==> v == row[col]
    ensures col !in row ==> v == Null
  {
    if col in row then row[col] else Null
  }

  /** JavaScript truthiness of a value handed over in an update object. */
  predicate Truthy(v: Value)
  {
    match v
    case Null => false
    case Bool(b) => b
    case Num(n) => n != 0
    case Str(s) => s != ""
    case Time(_) => true
    case Json(_) => true
  }

  // ---------- ordering ----------

  /** Lexicographic order on strings, by code point. */
  predicate StrLe(a: string, b: string)
  {
    a == [] || (b != [] && (a[0] < b[0] || (a[0] == b[0] && StrLe(a[1..], b[1..]))))
  }

  lemma {:induction false} StrLeTotal(a: string, b: string)
    ensures StrLe(a, b) || StrLe(b, a)
  {
    if a != [] && b != [] && a[0] == b[0] {
      StrLeTotal(a[1..], b[1..]);
    }
  }

  lemma {:induction false} StrLeTransitive(a: string, b: string, c: string)
    requires StrLe(a, b) && StrLe(b, c)
    ensures StrLe(a, c)
  {
    if a != [] && b != [] && c != [] && a[0] == b[0] && b[0] == c[0] {
      StrLeTransitive(a[1..], b[1..], c[1..]);
    }
  }

  /** Values of different kinds never share a column; this rank only makes the order total. NULL is last. */
  function Rank(v: Value): nat
  {
    match v
    case Bool(_) => 0
    case Num(_) => 1
    case Time(_) => 2
    case Str(_) => 3
    case Json(_) => 4
    case Null => 5
  }

  /**
   * The ascending order of ORDER BY: false before true, numbers and dates by
   * value, text by code point, and NULL after everything (so NULL comes
   * last when ascending and first when descending).
   */
  predicate ValueLe(a: Value, b: Value)
  {
    if Rank(a) != Rank(b) then Rank(a) < Rank(b)
    else match a
      case Bool(x) => !x || b.b
      case Num(x) => x <= b.n
      case Time(x) => x <= b.t
      case Str(x) => StrLe(x, b.s)
      case Json(x) => StrLe(x, b.text)
      case Null => true
  }

  lemma ValueLeTotal(a: Value, b: Value)
    ensures ValueLe(a, b) || ValueLe(b, a)
  {
    if a.Str? && b.Str? { StrLeTotal(a.s, b.s); }
    if a.Json? && b.Json? { StrLeTotal(a.text, b.text); }
  }

  lemma ValueLeTransitive(a: Value, b: Value, c: Value)
    requires ValueLe(a, b) && ValueLe(b, c)
    ensures ValueLe(a, c)
  {
    if a.Str? && b.Str? && c.Str? { StrLeTransitive(a.s, b.s, c.s); }
    if a.Json? && b.Json? && c.Json? { StrLeTransitive(a.text, b.text, c.text); }
  }

  datatype Direction = Asc | Desc

  /** `x` may come before `y` when ordering by `col` in direction `dir`. */
  predicate RowLe(col: string, dir: Direction, x: Row, y: Row)
  {
    if dir == Asc then ValueLe(Get(x, col), Get(y, col)) else ValueLe(Get(y, col), Get(x, col))
  }

  lemma RowLeTotal(col: string, dir: Direction, x: Row, y: Row)
    ensures RowLe(col, dir, x, y) || RowLe(col, dir, y, x)
  {
    ValueLeTotal(Get(x, col), Get(y, col));
  }

  lemma RowLeTransitive(col: string, dir: Direction, x: Row, y: Row, z: Row)
    requires RowLe(col, dir, x, y) && RowLe(col, dir, y, z)
    ensures RowLe(col, dir, x, z)
  {
    if dir == Asc {
      ValueLeTransitive(Get(x, col), Get(y, col), Get(z, col));
    } else {
      ValueLeTransitive(Get(z, col), Get(y, col), Get(x, col));
    }
  }

  /** Each row may come before the next one. */
  predicate Sorted(rows: seq<Row>, col: string, dir: Direction)
  {
    forall i :: 0 <= i < |rows| - 1 ==> RowLe(col, dir, rows[i], rows[i + 1])
  }

  /** In a sorted sequence every row may come before every later one. */
  lemma {:induction false} SortedPairwise(rows: seq<Row>, col: string, dir: Direction, i: int, j: int)
    requires Sorted(rows, col, dir) && 0 <= i < j < |rows|
    ensures RowLe(col, dir, rows[i], rows[j])
    decreases j - i
  {
    if i + 1 < j {
      SortedPairwise(rows, col, dir, i + 1, j);
      RowLeTransitive(col, dir, rows[i], rows[i + 1], rows[j]);
    }
  }

  /** Places `x` before the first row it may precede. */
  function Insert(x: Row, s: seq<Row>, col: string, dir: Direction): (r: seq<Row>)
    requires Sorted(s, col, dir)
    ensures multiset(r) == multiset(s) + multiset{x}
    ensures Sorted(r, col, dir)
    ensures |r| == |s| + 1 && (r[0] == x || (s != [] && r[0] == s[0]))
  {
    if s == [] || RowLe(col, dir, x, s[0]) then
      [x] + s
    else
      RowLeTotal(col, dir, x, s[0]);
      var rest := Insert(x, s[1..], col, dir);
      assert s == [s[0]] + s[1..];
      [s[0]] + rest
  }

  /** ORDER BY `col` in direction `dir`: the same rows, ordered. */
  function SortBy(rows: seq<Row>, col: string, dir: Direction): (r: seq<Row>)
    ensures multiset(r) == multiset(rows)
    ensures Sorted(r, col, dir)
  {
    if rows == [] then []
    else
      assert rows == [rows[0]] + rows[1..];
      Insert(rows[0], SortBy(rows[1..], col, dir), col, dir)
  }

  // ---------- filtering ----------

  /** The rows satisfying `p`, in table order. */
  function Filter(rows: seq<Row>, p: Row -> bool): (r: seq<Row>)
    ensures forall k :: 0 <= k < |r| ==> p(r[k])
    ensures forall row :: multiset(r)[row] == if p(row) then multiset(rows)[row] else 0
    ensures |r| <= |rows|
  {
    if rows == [] then []
    else
      assert rows == [rows[0]] + rows[1..];
      var rest := Filter(rows[1..], p);
      if p(rows[0]) then [rows[0]] + rest else rest
  }

  /** `where(col, v)`; for v = NULL this is `IS NULL`, matching rows without the column. */
  function Eq(col: string, v: Value): Row -> bool
  {
    row => Get(row, col) == v
  }

  /** The first row satisfying `p`, by position. */
  function FindFirst(rows: seq<Row>, p: Row -> bool): (r: Option<nat>)
    ensures r.None? <==> forall k :: 0 <= k < |rows| ==> !p(rows[k])
    ensures r.Some? ==> r.value < |rows| && p(rows[r.value])
    ensures r.Some? ==> forall k :: 0 <= k < r.value ==> !p(rows[k])
  {
    if rows == [] then None
    else if p(rows[0]) then Some(0)
    else match FindFirst(rows[1..], p)
      case None => None
      case Some(k) => Some(k + 1)
  }

  /** `.where(...).first()`: the first matching row in table order, if any. */
  function FirstWhere(rows: seq<Row>, p: Row -> bool): (r: Option<Row>)
    ensures r.None? <==> forall k :: 0 <= k < |rows| ==> !p(rows[k])
    ensures r.Some? ==> r.value in rows && p(r.value)
  {
    match FindFirst(rows, p)
    case None => None
    case Some(k) => Some(rows[k])
  }

  // ---------- windows ----------

  /** `.limit(limit).offset(offset)`: the rows at positions offset .. offset + limit - 1. */
  function Window(rows: seq<Row>, offset: nat, limit: nat): (r: seq<Row>)
    ensures |r| <= limit
    ensures |r| == if offset >= |rows| then 0 else if offset + limit <= |rows| then limit else |rows| - offset
    ensures forall k :: 0 <= k < |r| ==> offset + k < |rows| && r[k] == rows[offset + k]
  {
    if offset >= |rows| then []
    else if offset + limit <= |rows| then rows[offset..offset + limit]
    else rows[offset..]
  }

  /** A window of a sorted sequence is sorted and draws its rows from it. */
  lemma WindowOfSorted(rows: seq<Row>, offset: nat, limit: nat, col: string, dir: Direction)
    requires Sorted(rows, col, dir)
    ensures Sorted(Window(rows, offset, limit), col, dir)
    ensures forall k :: 0 <= k < |Window(rows, offset, limit)| ==> Window(rows, offset, limit)[k] in rows
  {
    var w := Window(rows, offset, limit);
    forall i | 0 <= i < |w| - 1 ensures RowLe(col, dir, w[i], w[i + 1]) {
      assert w[i] == rows[offset + i] && w[i + 1] == rows[offset + i + 1];
    }
    forall k | 0 <= k < |w| ensures w[k] in rows {
      assert w[k] == rows[offset + k];
    }
  }

  // ---------- updates ----------

  /** `.where('id', id).update(patch)`: every row with that id takes the patch's columns. */
  function UpdateById(rows: seq<Row>, id: string, patch: Row): (r: seq<Row>)
    ensures |r| == |rows|
    ensures forall k :: 0 <= k < |rows| && Get(rows[k], "id") != Str(id) ==> r[k] == rows[k]
    ensures forall k :: 0 <= k < |rows| && Get(rows[k], "id") == Str(id) ==> r[k] == rows[k] + patch
  {
    if rows == [] then []
    else [if Get(rows[0], "id") == Str(id) then rows[0] + patch else rows[0]]
         + UpdateById(rows[1..], id, patch)
  }

  /** `.returning('*')` of that update, destructured to its first row. */
  function UpdatedRow(rows: seq<Row>, id: string, patch: Row): (r: Option<Row>)
    ensures r.None? <==> forall k :: 0 <= k < |rows| ==> Get(rows[k], "id") != Str(id)
    ensures r.Some? ==> r.value in UpdateById(rows, id, patch)
    ensures r.Some? ==>
              exists k :: (&& 0 <= k < |rows|
                           && Get(rows[k], "id") == Str(id)
                           && (forall j :: 0 <= j < k ==> Get(rows[j], "id") != Str(id))
                           && r.value == rows[k] + patch)
    ensures r.Some? ==> forall c :: c in patch ==> c in r.value && r.value[c] == patch[c]
  {
    match FindFirst(rows, Eq("id", Str(id)))
    case None => None
    case Some(k) =>
      assert UpdateById(rows, id, patch)[k] == rows[k] + patch;
      Some(rows[k] + patch)
  }

  /** No two rows share an id. */
  predicate UniqueIds(rows: seq<Row>)
  {
    forall i, j :: 0 <= i < j < |rows| && Get(rows[i], "id") == Get(rows[j], "id") ==> Get(rows[i], "id") == Null
  }

  /** With unique ids, an update changes the one row holding the id and no other. */
  lemma UpdateChangesOneRow(rows: seq<Row>, id: string, patch: Row, k: nat)
    requires UniqueIds(rows) && k < |rows| && Get(rows[k], "id") == Str(id)
    ensures UpdateById(rows, id, patch)[k] == rows[k] + patch
    ensures forall j :: 0 <= j < |rows| && j != k ==> UpdateById(rows, id, patch)[j] == rows[j]
    ensures UpdatedRow(rows, id, patch) == Some(rows[k] + patch)
  {
    var first := FindFirst(rows, Eq("id", Str(id)));
    assert Eq("id", Str(id))(rows[k]);
    assert first.Some? && first.value <= k;
    assert Get(rows[first.value], "id") == Str(id);
  }

}
