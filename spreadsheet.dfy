/**
 * selenium_qt_browser/notepage_exc.py: the sparse table behind the
 * "NotePage Exc" spreadsheet tab.  Cells live in a map from (row, column)
 * to text next to the row and column counts; inserting or removing a row
 * or column rebuilds the map with the following keys shifted.
 */
module Spreadsheet {
  import opened Common

  datatype Cell = Cell(row: int, col: int)

  /** Rows and columns are handled alike; `Axis` says which coordinate an operation shifts. */
  datatype Axis = Rows | Cols

  function Coord(c: Cell, axis: Axis): int {
    if axis == Rows then c.row else c.col
  }

  function Move(c: Cell, axis: Axis, delta: int): (r: Cell)
    ensures Coord(r, axis) == Coord(c, axis) + delta
  {
    if axis == Rows then Cell(c.row + delta, c.col) else Cell(c.row, c.col + delta)
  }

  /** Where a key goes when a line is inserted at `p`: lines at or after `p` move one on. */
  function InsertedKey(c: Cell, axis: Axis, p: int): Cell {
    if Coord(c, axis) >= p then Move(c, axis, 1) else c
  }

  /** Where a surviving key goes when line `p` is removed: lines after `p` move one back. */
  function RemovedKey(c: Cell, axis: Axis, p: int): Cell {
    if Coord(c, axis) > p then Move(c, axis, -1) else c
  }

  /** Shifting back undoes shifting on, and every key off line `p` is the shift of its shift-back. */
  lemma ShiftInverses(axis: Axis, p: int)
    ensures forall c :: RemovedKey(InsertedKey(c, axis, p), axis, p) == c
    ensures forall c :: Coord(InsertedKey(c, axis, p), axis) != p
    ensures forall k :: Coord(k, axis) != p ==> InsertedKey(RemovedKey(k, axis, p), axis, p) == k
  {
  }

  /** The cell map after inserting a line at `p`. */
  function Inserted(m: map<Cell, string>, axis: Axis, p: int): map<Cell, string> {
    ShiftInverses(axis, p);
    map k | k in (set c | c in m :: InsertedKey(c, axis, p)) :: m[RemovedKey(k, axis, p)]
  }

  /** The cell map after removing line `p`: its cells are dropped and the later ones shift back. */
  function Removed(m: map<Cell, string>, axis: Axis, p: int): map<Cell, string> {
    ShiftInverses(axis, p);
    map k | k in (set c | c in m && Coord(c, axis) != p :: RemovedKey(c, axis, p)) :: m[InsertedKey(k, axis, p)]
  }

  /** Membership and lookup in the inserted map, read backwards from the new key. */
  lemma InsertedKeys(m: map<Cell, string>, axis: Axis, p: int)
    ensures forall k :: k in Inserted(m, axis, p) <==> Coord(k, axis) != p && RemovedKey(k, axis, p) in m
    ensures forall k :: k in Inserted(m, axis, p) ==> Inserted(m, axis, p)[k] == m[RemovedKey(k, axis, p)]
  {
    ShiftInverses(axis, p);
    forall k | Coord(k, axis) != p && RemovedKey(k, axis, p) in m
      ensures k in Inserted(m, axis, p)
    {
      var c := RemovedKey(k, axis, p);
      assert InsertedKey(c, axis, p) == k;
    }
  }

  /** Membership and lookup in the map after a removal, read backwards from the new key. */
  lemma RemovedKeys(m: map<Cell, string>, axis: Axis, p: int)
    ensures forall k :: k in Removed(m, axis, p) <==> InsertedKey(k, axis, p) in m
    ensures forall k :: k in Removed(m, axis, p) ==> Removed(m, axis, p)[k] == m[InsertedKey(k, axis, p)]
  {
    ShiftInverses(axis, p);
    forall k | InsertedKey(k, axis, p) in m
      ensures k in Removed(m, axis, p)
    {
      var c := InsertedKey(k, axis, p);
      assert RemovedKey(c, axis, p) == k;
    }
  }

  // ----- what the shifts do to the cell map -----

  /**
   * After an insert at `p`, every cell at or after `p` is found one line on
   * with its value, every other cell where it was, and nothing lands on line `p`.
   */
  lemma InsertedLookup(m: map<Cell, string>, axis: Axis, p: int, c: Cell)
    requires c in m
    ensures Coord(c, axis) >= p ==> Move(c, axis, 1) in Inserted(m, axis, p) && Inserted(m, axis, p)[Move(c, axis, 1)] == m[c]
    ensures Coord(c, axis) < p ==> c in Inserted(m, axis, p) && Inserted(m, axis, p)[c] == m[c]
    ensures forall k :: k in Inserted(m, axis, p) ==> Coord(k, axis) != p
  {
    InsertedKeys(m, axis, p);
    ShiftInverses(axis, p);
    assert RemovedKey(InsertedKey(c, axis, p), axis, p) == c;
  }

  /**
   * After removing line `p`, every cell before `p` stays with its value,
   * every cell after `p` is found one line back, and the cells of line `p` are gone.
   */
  lemma RemovedLookup(m: map<Cell, string>, axis: Axis, p: int, c: Cell)
    requires c in m
    ensures Coord(c, axis) < p ==> c in Removed(m, axis, p) && Removed(m, axis, p)[c] == m[c]
    ensures Coord(c, axis) > p ==> Move(c, axis, -1) in Removed(m, axis, p) && Removed(m, axis, p)[Move(c, axis, -1)] == m[c]
    ensures Coord(c, axis) == p ==> forall k :: k in Removed(m, axis, p) ==> Removed(m, axis, p)[k] == m[InsertedKey(k, axis, p)] && InsertedKey(k, axis, p) != c
  {
    RemovedKeys(m, axis, p);
    ShiftInverses(axis, p);
    if Coord(c, axis) != p {
      assert InsertedKey(RemovedKey(c, axis, p), axis, p) == c;
    }
  }

  /** Removing the line just inserted gives back the original cell map. */
  lemma RemoveUndoesInsert(m: map<Cell, string>, axis: Axis, p: int)
    ensures Removed(Inserted(m, axis, p), axis, p) == m
  {
    var n := Inserted(m, axis, p);
    InsertedKeys(m, axis, p);
    RemovedKeys(n, axis, p);
    ShiftInverses(axis, p);
    assert Removed(n, axis, p).Keys == m.Keys;
  }

  /** The keys of an injective image. */
  lemma {:induction false} InjectiveImageSize(s: set<Cell>, f: Cell -> Cell)
    requires forall a, b :: a in s && b in s && f(a) == f(b) ==> a == b
    ensures |set c | c in s :: f(c)| == |s|
    decreases |s|
  {
    if s != {} {
      var x :| x in s;
      var rest := s - {x};
      InjectiveImageSize(rest, f);
      assert (set c | c in s :: f(c)) == (set c | c in rest :: f(c)) + {f(x)};
      assert f(x) !in (set c | c in rest :: f(c));
    }
  }

  /** Inserting a line keeps every entry: the map has as many cells as before. */
  lemma InsertedSize(m: map<Cell, string>, axis: Axis, p: int)
    ensures |Inserted(m, axis, p)| == |m|
  {
    var f := (c: Cell) => InsertedKey(c, axis, p);
    InjectiveImageSize(m.Keys, f);
    assert Inserted(m, axis, p).Keys == set c | c in m.Keys :: f(c);
  }

  /** Removing a line drops exactly the cells on that line. */
  lemma RemovedSize(m: map<Cell, string>, axis: Axis, p: int)
    ensures |Removed(m, axis, p)| == |m| - |set c | c in m && Coord(c, axis) == p|
  {
    var kept := set c | c in m && Coord(c, axis) != p;
    var dropped := set c | c in m && Coord(c, axis) == p;
    var f := (c: Cell) => RemovedKey(c, axis, p);
    InjectiveImageSize(kept, f);
    forall k | k in Removed(m, axis, p).Keys
      ensures k in set c | c in kept :: f(c)
    {
      var c :| c in m && Coord(c, axis) != p && RemovedKey(c, axis, p) == k;
      assert c in kept;
    }
    assert Removed(m, axis, p).Keys == set c | c in kept :: f(c);
    assert m.Keys == kept + dropped && kept * dropped == {};
  }

  // ----- headers -----

  datatype Orientation = Horizontal | Vertical
  datatype Role = DisplayRole | EditRole | OtherRole

  /** `chr(65 + s)` below 26, otherwise `chr(64 + s // 26) + chr(65 + s % 26)`. */
  function ColumnHeader(section: nat): string
    requires 64 + section / 26 < 0xD800
  {
    if section < 26 then [(65 + section) as char]
    else [(64 + section / 26) as char, (65 + section % 26) as char]
  }

  /** Reads an Excel-style column name of one or two capital letters back into its section. */
  function ColumnIndex(h: string): Option<nat> {
    if |h| == 1 && 'A' <= h[0] <= 'Z' then Some(h[0] as int - 65)
    else if |h| == 2 && 'A' <= h[0] <= 'Z' && 'A' <= h[1] <= 'Z' then Some((h[0] as int - 64) * 26 + (h[1] as int - 65))
    else None
  }

  /**
   * Up to column 701 ("ZZ") the headers are Excel names: one or two
   * capital letters that read back to the section, so no two columns
   * share a header.
   */
  lemma ColumnHeaderRoundTrip(section: nat)
    requires section < 702
    ensures ColumnIndex(ColumnHeader(section)) == Some(section)
  {
  }

  lemma ColumnHeadersDistinct(s1: nat, s2: nat)
    requires s1 < 702 && s2 < 702 && ColumnHeader(s1) == ColumnHeader(s2)
    ensures s1 == s2
  {
    ColumnHeaderRoundTrip(s1);
    ColumnHeaderRoundTrip(s2);
  }

  lemma ColumnHeaderExamples()
    ensures ColumnHeader(0) == "A" && ColumnHeader(25) == "Z"
    ensures ColumnHeader(26) == "AA" && ColumnHeader(52) == "BA" && ColumnHeader(701) == "ZZ"
  {
  }

  /** `headerData`: column letters or 1-based row numbers for the display role, None otherwise. */
  function HeaderData(section: nat, orientation: Orientation, role: Role): (r: Option<string>)
    requires 64 + section / 26 < 0xD800
    ensures r.Some? <==> role == DisplayRole
    ensures r.Some? && orientation == Vertical ==> ParseInt(r.value) == Some(section + 1)
  {
    if role != DisplayRole then None
    else if orientation == Horizontal then Some(ColumnHeader(section))
    else
      ParseIntToString(section + 1);
      Some(IntToString(section + 1))
  }

  // ----- the model object -----

  /** A QModelIndex: the view only hands the model valid ones for cells it shows. */
  datatype ModelIndex = Invalid | At(cell: Cell)

  class SpreadsheetModel {
    var rows: int
    var cols: int
    var cells: map<Cell, string>

    /** `__init__(rows=100, cols=26)`: an empty sheet. */
    constructor (rows0: int, cols0: int)
      ensures rows == rows0 && cols == cols0 && cells == map[]
    {
      rows := rows0;
      cols := cols0;
      cells := map[];
    }

    /** `data`: the cell's text ("" when unset) for the display and edit roles, None otherwise. */
    function Data(index: ModelIndex, role: Role): (r: Option<string>)
      reads this
      ensures r.Some? <==> index.At? && role != OtherRole
      ensures r.Some? && index.cell !in cells ==> r.value == ""
      ensures r.Some? && index.cell in cells ==> r.value == cells[index.cell]
    {
      match index
      case Invalid => None
      case At(cell) =>
        if role == OtherRole then None
        else Some(if cell in cells then cells[cell] else "")
    }

    /** `setData`: with a valid index and the edit role, store exactly that one cell. */
    method SetData(index: ModelIndex, value: string, role: Role) returns (ok: bool)
      modifies this`cells
      ensures ok <==> index.At? && role == EditRole
      ensures ok ==> cells == old(cells)[index.cell := value]
      ensures !ok ==> cells == old(cells)
    {
      if index.Invalid? {
        return false;
      }
      if role == EditRole {
        cells := cells[index.cell := value];
        return true;
      }
      return false;
    }

    /** Rebuilds the cell map through the insert shift, one entry at a time. */
    method ShiftForInsert(axis: Axis, p: int)
      modifies this`cells
      ensures cells == Inserted(old(cells), axis, p)
    {
      ShiftInverses(axis, p);
      var newData: map<Cell, string> := map[];
      var todo := cells.Keys;
      while todo != {}
        invariant todo <= cells.Keys
        invariant forall k :: k in newData <==> Coord(k, axis) != p && RemovedKey(k, axis, p) in cells && RemovedKey(k, axis, p) !in todo
        invariant forall k :: k in newData ==> newData[k] == cells[RemovedKey(k, axis, p)]
        decreases |todo|
      {
        var c :| c in todo;
        newData := newData[InsertedKey(c, axis, p) := cells[c]];
        todo := todo - {c};
      }
      InsertedKeys(cells, axis, p);
      assert newData.Keys == Inserted(cells, axis, p).Keys;
      cells := newData;
    }

    /** Rebuilds the cell map through the removal shift, skipping line `p`. */
    method ShiftForRemove(axis: Axis, p: int)
      modifies this`cells
      ensures cells == Removed(old(cells), axis, p)
    {
      ShiftInverses(axis, p);
      var newData: map<Cell, string> := map[];
      var todo := cells.Keys;
      while todo != {}
        invariant todo <= cells.Keys
        invariant forall k :: k in newData <==> InsertedKey(k, axis, p) in cells && InsertedKey(k, axis, p) !in todo
        invariant forall k :: k in newData ==> newData[k] == cells[InsertedKey(k, axis, p)]
        decreases |todo|
      {
        var c :| c in todo;
        if Coord(c, axis) != p {
          newData := newData[RemovedKey(c, axis, p) := cells[c]];
        }
        todo := todo - {c};
      }
      RemovedKeys(cells, axis, p);
      assert newData.Keys == Removed(cells, axis, p).Keys;
      cells := newData;
    }

    /** `insertRow(position)`: one more row; rows at or after `position` move down. */
    method InsertRow(position: int) returns (ok: bool)
      modifies this
      ensures ok && rows == old(rows) + 1 && cols == old(cols)
      ensures cells == Inserted(old(cells), Rows, position)
    {
      rows := rows + 1;
      ShiftForInsert(Rows, position);
      return true;
    }

    /** `insertColumn(position)`: the column-wise mirror of InsertRow. */
    method InsertColumn(position: int) returns (ok: bool)
      modifies this
      ensures ok && cols == old(cols) + 1 && rows == old(rows)
      ensures cells == Inserted(old(cells), Cols, position)
    {
      cols := cols + 1;
      ShiftForInsert(Cols, position);
      return true;
    }

    /** `removeRow(position)`: refused with one row left; otherwise the row's cells go and later rows move up. */
    method RemoveRow(position: int) returns (ok: bool)
      modifies this
      ensures ok <==> old(rows) > 1
      ensures !ok ==> rows == old(rows) && cells == old(cells)
      ensures ok ==> rows == old(rows) - 1 && cells == Removed(old(cells), Rows, position)
      ensures cols == old(cols)
    {
      if rows <= 1 {
        return false;
      }
      rows := rows - 1;
      ShiftForRemove(Rows, position);
      return true;
    }

    /** `removeColumn(position)`: the column-wise mirror of RemoveRow. */
    method RemoveColumn(position: int) returns (ok: bool)
      modifies this
      ensures ok <==> old(cols) > 1
      ensures !ok ==> cols == old(cols) && cells == old(cells)
      ensures ok ==> cols == old(cols) - 1 && cells == Removed(old(cells), Cols, position)
      ensures rows == old(rows)
    {
      if cols <= 1 {
        return false;
      }
      cols := cols - 1;
      ShiftForRemove(Cols, position);
      return true;
    }

    /** `clear`: no cells, same dimensions. */
    method Clear()
      modifies this`cells
      ensures cells == map[] && rows == old(rows) && cols == old(cols)
    {
      cells := map[];
    }

    /** Inserting a row and removing it again restores the sheet. */
    method InsertThenRemoveRow(position: int)
      requires rows >= 1
      modifies this
      ensures rows == old(rows) && cols == old(cols) && cells == old(cells)
    {
      var _ := InsertRow(position);
      var _ := RemoveRow(position);
      RemoveUndoesInsert(old(cells), Rows, position);
    }

    /** Editing a cell and reading it back: the new text there, and every other cell as before. */
    method EditThenRead(c: Cell, v: string) returns (read: Option<string>)
      modifies this`cells
      ensures read == Some(v)
      ensures forall d :: d != c ==> Data(At(d), DisplayRole) == old(Data(At(d), DisplayRole))
    {
      var _ := SetData(At(c), v, EditRole);
      read := Data(At(c), DisplayRole);
    }
  }

  /** `NotePageExc.add_row`: below the first selected cell, or at the end when nothing is selected. */
  function AddRowPosition(selected: seq<Cell>, rowCount: int): (r: int)
    ensures |selected| > 0 ==> r == selected[0].row + 1
    ensures |selected| == 0 ==> r == rowCount
  {
    if |selected| > 0 then selected[0].row + 1 else rowCount
  }

  /**
   * With the selection inside the table, `add_row` inserts at a row in
   * `[0, rowCount]`; the first selected cell keeps its place and text, and
   * the new row is empty.
   */
  lemma AddRowBelowSelection(m: map<Cell, string>, selected: seq<Cell>, rowCount: int)
    requires rowCount >= 0 && forall i :: 0 <= i < |selected| ==> 0 <= selected[i].row < rowCount
    ensures var r := AddRowPosition(selected, rowCount);
      0 <= r <= rowCount &&
      (forall k :: k in Inserted(m, Rows, r) ==> k.row != r) &&
      (|selected| > 0 && selected[0] in m ==>
        selected[0] in Inserted(m, Rows, r) && Inserted(m, Rows, r)[selected[0]] == m[selected[0]])
  {
    var r := AddRowPosition(selected, rowCount);
    InsertedKeys(m, Rows, r);
    if |selected| > 0 && selected[0] in m {
      InsertedLookup(m, Rows, r, selected[0]);
    }
  }
}
