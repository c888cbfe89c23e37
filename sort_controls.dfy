/** The data table's sort controls: the column labels built from column
    ids, the column and direction chosen when the controls mount, the
    change handler, and whether the controls show at all. The table
    itself is reduced to its columns (id and whether it can be sorted) and
    its current sorting; asking it to sort is returned as a request. */
module SortControls {
  import opened Options
  import opened Seqs
  import opened Strings

  // ---------------------------------------------------------------------
  // Column labels
  // ---------------------------------------------------------------------

  /** One character of an id in its label: a capital gets a space before it. */
  function Spaced(c: char): string {
    if IsAsciiUpper(c) then [' ', c] else [c]
  }

  /** `.replace(/([A-Z])/g, " $1")`: a space before every ASCII capital. */
  function SpaceBeforeCapitals(s: string): string {
    if s == [] then [] else Spaced(s[0]) + SpaceBeforeCapitals(s[1..])
  }

  /** The number of ASCII capitals in `s`. */
  function Capitals(s: string): nat {
    if s == [] then 0 else (if IsAsciiUpper(s[0]) then 1 else 0) + Capitals(s[1..])
  }

  /** `s` with its spaces taken out. */
  function WithoutSpaces(s: string): string {
    if s == [] then [] else Unspaced(s[0]) + WithoutSpaces(s[1..])
  }

  function Unspaced(c: char): string {
    if c == ' ' then [] else [c]
  }

  /** The label of a column: its id with the first character uppercased
      and a space before every later capital; the empty id gives the empty
      label. */
  function ColumnLabel(id: string): (r: string)
    ensures id == [] <==> r == []
    ensures id != [] ==> r[0] == UpperChar(id[0]) && r[1..] == SpaceBeforeCapitals(id[1..])
  {
    if id == [] then [] else [UpperChar(id[0])] + SpaceBeforeCapitals(id[1..])
  }

  /** The inserted spaces add one character per capital. */
  lemma {:induction false} SpaceBeforeCapitalsLength(s: string)
    ensures |SpaceBeforeCapitals(s)| == |s| + Capitals(s)
  {
    if s != [] {
      SpaceBeforeCapitalsLength(s[1..]);
    }
  }

  /** A label is as long as its id plus one per capital after the first
      character. */
  lemma LabelLength(id: string)
    ensures id != [] ==> |ColumnLabel(id)| == |id| + Capitals(id[1..])
    ensures id == [] ==> |ColumnLabel(id)| == 0
  {
    if id != [] {
      SpaceBeforeCapitalsLength(id[1..]);
    }
  }

  /** Taking the spaces back out of a space-free id gives the id back. */
  lemma {:induction false} SpacesRemovable(s: string)
    requires ' ' !in s
    ensures WithoutSpaces(SpaceBeforeCapitals(s)) == s
  {
    if s != [] {
      SpacesRemovable(s[1..]);
      var head := Spaced(s[0]);
      WithoutSpacesAppend(head, SpaceBeforeCapitals(s[1..]));
      assert WithoutSpaces(head) == [s[0]] by {
        if IsAsciiUpper(s[0]) {
          assert head[1..] == [s[0]];
        }
      }
    }
  }

  lemma {:induction false} WithoutSpacesAppend(a: string, b: string)
    ensures WithoutSpaces(a + b) == WithoutSpaces(a) + WithoutSpaces(b)
  {
    if a == [] {
      assert a + b == b;
    } else {
      var rest := a[1..] + b;
      assert a + b == [a[0]] + rest;
      calc {
        WithoutSpaces(a + b);
        Unspaced(a[0]) + WithoutSpaces(rest);
        { WithoutSpacesAppend(a[1..], b); }
        Unspaced(a[0]) + (WithoutSpaces(a[1..]) + WithoutSpaces(b));
        (Unspaced(a[0]) + WithoutSpaces(a[1..])) + WithoutSpaces(b);
      }
    }
  }

  /** Two space-free ids whose labels agree after the first character
      agree after the first character. */
  lemma LabelTailsDetermineIds(id1: string, id2: string)
    requires id1 != [] && id2 != [] && ' ' !in id1 && ' ' !in id2
    requires ColumnLabel(id1) == ColumnLabel(id2)
    ensures id1[1..] == id2[1..]
  {
    SpacesRemovable(id1[1..]);
    SpacesRemovable(id2[1..]);
  }

  /** "checkIn" reads "Check In". */
  lemma LabelExample()
    ensures ColumnLabel("checkIn") == "Check In"
  {
    assert "checkIn"[0] == 'c' && UpperChar('c') == 'C';
    assert "checkIn"[1..] == "heck" + "In";
    SpaceBeforeCapitalsAppend("heck", "In");
    NoCapitalsUnchanged("heck");
    assert "In" == ['I'] + "n";
    NoCapitalsUnchanged("n");
    assert SpaceBeforeCapitals("In") == " I" + "n";
  }

  /** A string without capitals gets no spaces. */
  lemma {:induction false} NoCapitalsUnchanged(s: string)
    requires forall i :: 0 <= i < |s| ==> !IsAsciiUpper(s[i])
    ensures SpaceBeforeCapitals(s) == s
  {
    if s != [] {
      NoCapitalsUnchanged(s[1..]);
    }
  }

  lemma {:induction false} SpaceBeforeCapitalsAppend(a: string, b: string)
    ensures SpaceBeforeCapitals(a + b) == SpaceBeforeCapitals(a) + SpaceBeforeCapitals(b)
  {
    if a == [] {
      assert a + b == b;
    } else {
      var rest := a[1..] + b;
      assert a + b == [a[0]] + rest;
      calc {
        SpaceBeforeCapitals(a + b);
        Spaced(a[0]) + SpaceBeforeCapitals(rest);
        { SpaceBeforeCapitalsAppend(a[1..], b); }
        Spaced(a[0]) + (SpaceBeforeCapitals(a[1..]) + SpaceBeforeCapitals(b));
        (Spaced(a[0]) + SpaceBeforeCapitals(a[1..])) + SpaceBeforeCapitals(b);
      }
    }
  }

  // ---------------------------------------------------------------------
  // Directions and the table
  // ---------------------------------------------------------------------

  datatype Direction = Asc | Desc

  /** What the order button reads. */
  function DirectionLabel(d: Direction): (r: string)
    ensures r == "A to Z" <==> d == Asc
    ensures r == "Z to A" <==> d == Desc
  {
    assert "A to Z"[0] == 'A' && "Z to A"[0] == 'Z';
    match d
    case Asc => "A to Z"
    case Desc => "Z to A"
  }

  datatype TableColumn = TableColumn(id: string, canSort: bool)

  /** The table's first sort entry. */
  datatype ColumnSort = ColumnSort(id: string, desc: bool)

  datatype SortableColumn = SortableColumn(id: string, labelText: string)

  function Sortable(columns: seq<TableColumn>): seq<TableColumn> {
    Filter(columns, (c: TableColumn) => c.canSort)
  }

  /** The columns the select lists: the sortable ones, in table order, each
      with its label. */
  function SortableColumns(columns: seq<TableColumn>): (r: seq<SortableColumn>)
    ensures |r| == |Sortable(columns)|
    ensures forall i :: 0 <= i < |r| ==>
              r[i].id == Sortable(columns)[i].id && r[i].labelText == ColumnLabel(r[i].id)
  {
    Map(Sortable(columns), (c: TableColumn) => SortableColumn(c.id, ColumnLabel(c.id)))
  }

  /** The select lists nothing exactly when no column can be sorted. */
  lemma NoSortableColumns(columns: seq<TableColumn>)
    ensures SortableColumns(columns) == [] <==> forall c :: c in columns ==> !c.canSort
  {
    if SortableColumns(columns) != [] {
      assert Sortable(columns)[0] in Sortable(columns);
    }
  }

  /** The column and direction picked on mount: those of the current sort
      when the table is sorted, else the first sortable column ascending,
      else nothing ascending. */
  function InitialSelection(columns: seq<TableColumn>, sorting: Option<ColumnSort>): (r: (string, Direction))
    ensures sorting.Some? ==> r.0 == sorting.value.id && (r.1 == Desc <==> sorting.value.desc)
    ensures sorting.None? ==> r.1 == Asc
    ensures sorting.None? && Sortable(columns) == [] ==> r.0 == ""
    ensures sorting.None? && Sortable(columns) != [] ==>
              exists i :: 0 <= i < |columns| && columns[i].canSort && columns[i].id == r.0 &&
                          forall j :: 0 <= j < i ==> !columns[j].canSort
  {
    match sorting
    case Some(s) => (s.id, if s.desc then Desc else Asc)
    case None =>
      if Sortable(columns) == [] then ("", Asc)
      else
        FirstSortable(columns);
        (Sortable(columns)[0].id, Asc)
  }

  /** The first sortable column is the first column that can be sorted. */
  lemma {:induction false} FirstSortable(columns: seq<TableColumn>)
    requires Sortable(columns) != []
    ensures exists i :: 0 <= i < |columns| && columns[i].canSort && columns[i] == Sortable(columns)[0] &&
                        forall j :: 0 <= j < i ==> !columns[j].canSort
  {
    if !columns[0].canSort {
      assert Sortable(columns) == Sortable(columns[1..]);
      FirstSortable(columns[1..]);
      var i :| 0 <= i < |columns[1..]| && columns[1..][i].canSort && columns[1..][i] == Sortable(columns[1..])[0] &&
               forall j :: 0 <= j < i ==> !columns[1..][j].canSort;
      assert columns[i + 1] == columns[1..][i];
      forall j | 0 <= j < i + 1 ensures !columns[j].canSort {
        if j > 0 {
          assert columns[j] == columns[1..][j - 1];
        }
      }
    } else {
      assert columns[0] == Sortable(columns)[0];
    }
  }

  /** `table.getColumn(id)`: a column with that id, whether or not it can
      be sorted. */
  function FindColumn(columns: seq<TableColumn>, id: string): (r: Option<TableColumn>)
    ensures r.Some? <==> exists c :: c in columns && c.id == id
    ensures r.Some? ==> r.value in columns && r.value.id == id
  {
    var r := Find(columns, (c: TableColumn) => c.id == id);
    if r.None? then
      assert forall c :: c in columns ==> c.id != id;
      r
    else r
  }

  // ---------------------------------------------------------------------
  // The controls
  // ---------------------------------------------------------------------

  class SortControlsState {
    var sortableColumns: seq<SortableColumn>
    var selectedColumn: string
    var sortDirection: Direction

    /** The controls once the mount effect has run on a table with these
        columns and this sorting. */
    constructor(columns: seq<TableColumn>, sorting: Option<ColumnSort>)
      ensures sortableColumns == SortableColumns(columns)
      ensures (selectedColumn, sortDirection) == InitialSelection(columns, sorting)
    {
      sortableColumns := SortableColumns(columns);
      var selection := InitialSelection(columns, sorting);
      selectedColumn := selection.0;
      sortDirection := selection.1;
    }

    /** The controls draw nothing when no column can be sorted. */
    predicate Renders()
      reads this
    {
      sortableColumns != []
    }

    /** `handleSortChange`: select the column and direction, and ask the
        table to sort by that column (descending for `Desc`) when the table
        has such a column. */
    method SortChange(columns: seq<TableColumn>, columnId: string, direction: Direction)
      returns (request: Option<ColumnSort>)
      modifies this
      ensures selectedColumn == columnId && sortDirection == direction
      ensures sortableColumns == old(sortableColumns)
      ensures request.Some? <==> exists c :: c in columns && c.id == columnId
      ensures request.Some? ==> request.value == ColumnSort(columnId, direction == Desc)
    {
      selectedColumn := columnId;
      sortDirection := direction;
      if FindColumn(columns, columnId).Some? {
        request := Some(ColumnSort(columnId, direction == Desc));
      } else {
        request := None;
      }
    }
  }

  /** Mounted on a table without sortable columns, the controls draw
      nothing; with one, they draw and, unsorted, select a sortable
      column. */
  lemma MountedRendering(columns: seq<TableColumn>)
    ensures SortableColumns(columns) == [] <==> forall c :: c in columns ==> !c.canSort
    ensures Sortable(columns) != [] ==> InitialSelection(columns, None).0 in Map(SortableColumns(columns), (s: SortableColumn) => s.id)
  {
    NoSortableColumns(columns);
    if Sortable(columns) != [] {
      assert SortableColumns(columns)[0].id == InitialSelection(columns, None).0;
    }
  }
}
