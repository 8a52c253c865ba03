/** The index resolver: the parsed shape of the upstream's index page
    (main.go's `HTML` struct) and `getIndex`'s walk over it, which yields
    the locators of the child calendars. Decoding the page's bytes into
    this tree is the XML library's job and is not modelled. */
module Index {
  import opened Wrappers

  const NodeTable: string := "nodeTable"
  const NameColumn: string := "nameColumn"

  /** `<a href=...>` inside a cell; a cell without one decodes to href "". */
  datatype Anchor = Anchor(href: string)
  /** `<td class=...>` */
  datatype Cell = Cell(className: string, a: Anchor)
  /** `<tr>` */
  datatype Row = Row(td: seq<Cell>)
  /** `<table class=...>`; a section without a table decodes to class "" and no rows. */
  datatype Table = Table(className: string, tr: seq<Row>)
  /** `<section>` */
  datatype Section = Section(table: Table)
  /** `<body>` */
  datatype Body = Body(section: seq<Section>)
  /** `<html>` */
  datatype Html = Html(body: Body)

  /** Index of the first cell at or after `from` whose class is "nameColumn", if any. */
  function NameCellFrom(cells: seq<Cell>, from: nat): (r: Option<nat>)
    requires from <= |cells|
    ensures r.Some? ==> from <= r.value < |cells| && cells[r.value].className == NameColumn
    ensures r.Some? ==> forall j :: from <= j < r.value ==> cells[j].className != NameColumn
    ensures r.None? <==> forall j :: from <= j < |cells| ==> cells[j].className != NameColumn
    decreases |cells| - from
  {
    if from == |cells| then None
    else if cells[from].className == NameColumn then Some(from)
    else NameCellFrom(cells, from + 1)
  }

  /** Index of the first cell of a row whose class is "nameColumn", if any. */
  function FirstNameCell(cells: seq<Cell>): Option<nat>
  {
    NameCellFrom(cells, 0)
  }

  /** What one row of a node table contributes: the href of its first name cell. */
  function RowLocator(row: Row): Option<string>
  {
    match FirstNameCell(row.td)
    case None => None
    case Some(i) => Some(row.td[i].a.href)
  }

  /** A found locator as a sequence of zero or one. */
  function AsSeq(o: Option<string>): seq<string>
  {
    match o
    case None => []
    case Some(h) => [h]
  }

  /** The locators of a run of rows, one per row that has a name cell. */
  function RowsLocators(rows: seq<Row>): seq<string>
  {
    if rows == [] then [] else AsSeq(RowLocator(rows[0])) + RowsLocators(rows[1..])
  }

  /** The locators of one section: none unless its table is a node table. */
  function SectionLocators(s: Section): seq<string>
  {
    if s.table.className != NodeTable then [] else RowsLocators(s.table.tr)
  }

  /** The locators of a run of sections, in document order. */
  function Locators(sections: seq<Section>): seq<string>
  {
    if sections == [] then [] else SectionLocators(sections[0]) + Locators(sections[1..])
  }

  /** `getIndex` after decoding: walks every section of the page and, in
      each node table, takes the href of the first name cell of every row;
      the labelled continue leaves the row after its first match. */
  method GetIndex(x: Html) returns (urls: seq<string>)
    ensures urls == Locators(x.body.section)
  {
    var sections := x.body.section;
    urls := [];
    for s := 0 to |sections|
      invariant urls == Locators(sections[..s])
    {
      LocatorsStep(sections, s);
      var section := sections[s];
      if section.table.className != NodeTable {
        continue;
      }
      urls := ScanRows(urls, section.table.tr);
    }
    assert sections[..|sections|] == sections;
  }

  /** The `rowloop` of `getIndex` over one node table: appends to `urls`
      the href of the first name cell of every row, in row order. */
  method ScanRows(urls0: seq<string>, rows: seq<Row>) returns (urls: seq<string>)
    ensures urls == urls0 + RowsLocators(rows)
  {
    urls := urls0;
    label rowloop:
    for r := 0 to |rows|
      invariant urls == urls0 + RowsLocators(rows[..r])
    {
      RowsLocatorsStep(rows, r);
      ghost var upto := urls;
      var cells := rows[r].td;
      for c := 0 to |cells|
        invariant urls == upto
        invariant FirstNameCell(cells) == NameCellFrom(cells, c)
      {
        if cells[c].className != NameColumn {
          continue;
        }
        urls := urls + [cells[c].a.href];
        continue rowloop;
      }
    }
    assert rows[..|rows|] == rows;
  }

  lemma {:induction false} RowsLocatorsSnoc(rows: seq<Row>, row: Row)
    ensures RowsLocators(rows + [row]) == RowsLocators(rows) + AsSeq(RowLocator(row))
  {
    if rows == [] {
      assert [row][1..] == [];
    } else {
      assert (rows + [row])[1..] == rows[1..] + [row];
      RowsLocatorsSnoc(rows[1..], row);
    }
  }

  lemma RowsLocatorsStep(rows: seq<Row>, r: nat)
    requires r < |rows|
    ensures RowsLocators(rows[..r + 1]) == RowsLocators(rows[..r]) + AsSeq(RowLocator(rows[r]))
  {
    assert rows[..r + 1] == rows[..r] + [rows[r]];
    RowsLocatorsSnoc(rows[..r], rows[r]);
  }

  lemma LocatorsSnoc(sections: seq<Section>, s: Section)
    ensures Locators(sections + [s]) == Locators(sections) + SectionLocators(s)
  {
    LocatorsAppend(sections, [s]);
    assert Locators([s]) == SectionLocators(s) + Locators([]);
  }

  lemma LocatorsStep(sections: seq<Section>, s: nat)
    requires s < |sections|
    ensures Locators(sections[..s + 1]) == Locators(sections[..s]) + SectionLocators(sections[s])
  {
    assert sections[..s + 1] == sections[..s] + [sections[s]];
    LocatorsSnoc(sections[..s], sections[s]);
  }

  /** Locators are produced in document order: the locators of a page made
      of two runs of sections are those of the first run followed by those
      of the second. */
  lemma {:induction false} LocatorsAppend(a: seq<Section>, b: seq<Section>)
    ensures Locators(a + b) == Locators(a) + Locators(b)
  {
    if a == [] {
      assert a + b == b;
    } else {
      assert (a + b)[1..] == a[1..] + b;
      LocatorsAppend(a[1..], b);
    }
  }

  /** A section whose table class is not exactly "nodeTable" contributes no
      locators, whatever its rows hold. */
  lemma OtherTablesIgnored(before: seq<Section>, s: Section, after: seq<Section>)
    requires s.table.className != NodeTable
    ensures Locators(before + [s] + after) == Locators(before + after)
  {
    LocatorsAppend(before + [s], after);
    LocatorsSnoc(before, s);
    LocatorsAppend(before, after);
  }

  /** Each row yields the href of its first name cell, and later name cells
      of the same row are never looked at. */
  lemma FirstNameCellWins(row: Row, i: nat, later: seq<Cell>)
    requires i < |row.td| && row.td[i].className == NameColumn
    requires forall j :: 0 <= j < i ==> row.td[j].className != NameColumn
    ensures RowLocator(row) == Some(row.td[i].a.href)
    ensures RowLocator(Row(row.td[..i + 1] + later)) == RowLocator(row)
  {
    var cells := row.td[..i + 1] + later;
    assert cells[i] == row.td[i];
    assert forall j :: 0 <= j < i ==> cells[j] == row.td[j];
    match FirstNameCell(row.td)
    case None =>
    case Some(k) =>
      assert k == i;
  }

  /** A row without a name cell contributes nothing. */
  lemma RowWithoutNameCell(row: Row)
    requires forall j :: 0 <= j < |row.td| ==> row.td[j].className != NameColumn
    ensures RowLocator(row) == None
  {
  }

  /** Rows of node tables across the page. */
  function NodeRows(sections: seq<Section>): nat
  {
    if sections == [] then 0
    else (if sections[0].table.className == NodeTable then |sections[0].table.tr| else 0)
         + NodeRows(sections[1..])
  }

  /** Rows of node tables that carry a name cell. */
  function NamedRows(rows: seq<Row>): nat
  {
    if rows == [] then 0
    else (if RowLocator(rows[0]).Some? then 1 else 0) + NamedRows(rows[1..])
  }

  function NamedNodeRows(sections: seq<Section>): nat
  {
    if sections == [] then 0
    else (if sections[0].table.className == NodeTable then NamedRows(sections[0].table.tr) else 0)
         + NamedNodeRows(sections[1..])
  }

  lemma {:induction false} RowsLocatorsCount(rows: seq<Row>)
    ensures |RowsLocators(rows)| == NamedRows(rows) <= |rows|
  {
    if rows != [] {
      RowsLocatorsCount(rows[1..]);
    }
  }

  /** Nothing is filtered or removed beyond the table and cell rules: there
      is exactly one locator per node-table row that has a name cell, so
      duplicate hrefs are all kept; and there are never more locators than
      node-table rows. */
  lemma {:induction false} LocatorCount(sections: seq<Section>)
    ensures |Locators(sections)| == NamedNodeRows(sections)
    ensures NamedNodeRows(sections) <= NodeRows(sections)
  {
    if sections != [] {
      LocatorCount(sections[1..]);
      if sections[0].table.className == NodeTable {
        RowsLocatorsCount(sections[0].table.tr);
      }
    }
  }

  /** A node table whose rows each hold one cell, "nameColumn" with "/a.ics",
      "other", and "nameColumn" with "/b.ics", yields exactly the two hrefs
      in order: the middle row contributes nothing. */
  lemma ThreeRowExample()
    ensures Locators([Section(Table(NodeTable, [
              Row([Cell(NameColumn, Anchor("/a.ics"))]),
              Row([Cell("other", Anchor(""))]),
              Row([Cell(NameColumn, Anchor("/b.ics"))])]))])
         == ["/a.ics", "/b.ics"]
  {
    var rows := [Row([Cell(NameColumn, Anchor("/a.ics"))]),
                 Row([Cell("other", Anchor(""))]),
                 Row([Cell(NameColumn, Anchor("/b.ics"))])];
    assert RowsLocators(rows[2..]) == ["/b.ics"];
    assert RowsLocators(rows[1..]) == ["/b.ics"];
  }
}
