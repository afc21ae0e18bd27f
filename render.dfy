/**
 * The projection of the server list into the interactive table, and the
 * labelled fields of the details modal (main.go). The table is a grid of
 * text cells addressed by (row, column); the toolkit's table is unbounded,
 * so the grid is a map that `SetCell` extends or overwrites.
 */
module Render {
  import opened Domain

  /** The column count of the table. */
  const Columns: nat := 9

  /** Row 0 of the table: the column headers, left to right. */
  const Headers: seq<string> :=
    ["Server ID", "Facility", "Management IP", "Hostname", "Status", "CPU", "RAM", "Storage", "OS"]

  /** The package-item categories looked up for the last three columns. */
  const RamCategory: string := "RAM"
  const StorageCategory: string := "Hard Drive"
  const OsCategory: string := "Operating System"

  /** The nine cell texts of a server's row, left to right. */
  function RowCells(s: Server): (row: seq<string>)
    ensures |row| == Columns
  {
    [ s.serverId, s.facility, s.managementIp,
      s.pkg.hostname, s.pkg.status, s.pkg.core,
      ItemOption(s.pkg.items, RamCategory),
      ItemOption(s.pkg.items, StorageCategory),
      ItemOption(s.pkg.items, OsCategory) ]
  }

  /**
   * The labelled lines of the details modal, in the order they are written:
   * the labels are the column headers and the values are the row's cells.
   */
  function DetailFields(s: Server): (fields: seq<(string, string)>)
    ensures |fields| == Columns
    ensures forall c :: 0 <= c < Columns ==> fields[c] == (Headers[c], RowCells(s)[c])
  {
    [ ("Server ID", s.serverId),
      ("Facility", s.facility),
      ("Management IP", s.managementIp),
      ("Hostname", s.pkg.hostname),
      ("Status", s.pkg.status),
      ("CPU", s.pkg.core),
      ("RAM", ItemOption(s.pkg.items, RamCategory)),
      ("Storage", ItemOption(s.pkg.items, StorageCategory)),
      ("OS", ItemOption(s.pkg.items, OsCategory)) ]
  }

  /** The text of cell `p` in a map of cells, if that cell was ever set. */
  function Get(cells: map<(int, int), string>, p: (int, int)): Option<string>
  {
    if p in cells then Some(cells[p]) else None
  }

  /** `p` is a cell of the header row. */
  predicate InHeaderRow(p: (int, int))
  {
    p.0 == 0 && 0 <= p.1 < Columns
  }

  /** `p` is a cell of one of the data rows 1..rows. */
  predicate InDataRows(p: (int, int), rows: int)
  {
    1 <= p.0 <= rows && 0 <= p.1 < Columns
  }

  /**
   * The whole table after the headers and the rows of `servers` are
   * written into an empty grid: row 0 holds the headers, row i+1 holds
   * server i, and no other cell exists.
   */
  function Rendered(servers: seq<Server>, p: (int, int)): (r: Option<string>)
    ensures r.Some? <==> 0 <= p.0 <= |servers| && 0 <= p.1 < Columns
    ensures p.0 == 0 && r.Some? ==> r.value == Headers[p.1]
    ensures 1 <= p.0 && r.Some? ==> r.value == RowCells(servers[p.0 - 1])[p.1]
  {
    if InHeaderRow(p) then Some(Headers[p.1])
    else if InDataRows(p, |servers|) then Some(RowCells(servers[p.0 - 1])[p.1])
    else None
  }

  /**
   * The details modal of a server lists the same nine values, in the same
   * order, as that server's table row, each labelled with its column header.
   */
  lemma DetailsMatchRow(servers: seq<Server>, row: int)
    requires 1 <= row <= |servers|
    ensures |DetailFields(servers[row - 1])| == Columns
    ensures forall c :: 0 <= c < Columns ==>
      DetailFields(servers[row - 1])[c] == (Rendered(servers, (0, c)).value, Rendered(servers, (row, c)).value)
  {
  }

  /**
   * One server whose package lists only its RAM: the RAM column shows the
   * option, the OS column shows "N/A", and a lower-case "ram" item would not
   * have matched.
   */
  lemma ExampleRow()
    ensures var items := [PackageItem("RAM", "16GB")];
      var s := Server("abc", "DAL1", [], "10.0.0.1", Package(0, "4-core", "h1", items, "", "active"));
      && Rendered([s], (1, 6)) == Some("16GB")
      && Rendered([s], (1, 8)) == Some(NotAvailable)
      && ItemOption([PackageItem("ram", "16GB")], RamCategory) == NotAvailable
  {
  }

  /** The table of main.go: a grid of text cells. */
  class Table {
    var cells: map<(int, int), string>

    constructor ()
      ensures cells == map[]
    {
      cells := map[];
    }

    /** Write one cell, leaving every other cell as it was. */
    method SetCell(row: int, col: int, text: string)
      modifies this
      ensures cells == old(cells)[(row, col) := text]
    {
      cells := cells[(row, col) := text];
    }

    /** Write the header row (main.go lines 69-72). */
    method SetHeaders()
      modifies this
      ensures forall p :: Get(cells, p) == if InHeaderRow(p) then Some(Headers[p.1]) else Get(old(cells), p)
    {
      for i := 0 to |Headers|
        invariant forall p ::
                    Get(cells, p) == if p.0 == 0 && 0 <= p.1 < i then Some(Headers[p.1]) else Get(old(cells), p)
      {
        SetCell(0, i, Headers[i]);
      }
    }

    /** Write server i into row i+1, nine cells per row (main.go lines 79-90). */
    method AddServerRows(servers: seq<Server>)
      modifies this
      ensures forall p ::
                Get(cells, p) == if InDataRows(p, |servers|) then Some(RowCells(servers[p.0 - 1])[p.1]) else Get(old(cells), p)
    {
      for i := 0 to |servers|
        invariant forall p ::
                    Get(cells, p) == if InDataRows(p, i) then Some(RowCells(servers[p.0 - 1])[p.1]) else Get(old(cells), p)
      {
        var server := servers[i];
        var row := i + 1;
        ghost var before := cells;
        SetCell(row, 0, server.serverId);
        SetCell(row, 1, server.facility);
        SetCell(row, 2, server.managementIp);
        SetCell(row, 3, server.pkg.hostname);
        SetCell(row, 4, server.pkg.status);
        SetCell(row, 5, server.pkg.core);
        var ram := GetItemOption(server.pkg.items, RamCategory);
        SetCell(row, 6, ram);
        var storage := GetItemOption(server.pkg.items, StorageCategory);
        SetCell(row, 7, storage);
        var os := GetItemOption(server.pkg.items, OsCategory);
        SetCell(row, 8, os);
        RowWritten(before, cells, row, RowCells(server));
      }
    }
  }

  /** After the nine writes of one row, that row holds `texts` and nothing else changed. */
  lemma RowWritten(before: map<(int, int), string>, after: map<(int, int), string>, row: int, texts: seq<string>)
    requires |texts| == Columns
    requires after == before[(row, 0) := texts[0]][(row, 1) := texts[1]][(row, 2) := texts[2]]
                            [(row, 3) := texts[3]][(row, 4) := texts[4]][(row, 5) := texts[5]]
                            [(row, 6) := texts[6]][(row, 7) := texts[7]][(row, 8) := texts[8]]
    ensures forall p ::
              Get(after, p) == if p.0 == row && 0 <= p.1 < Columns then Some(texts[p.1]) else Get(before, p)
  {
  }
}
