/**
 * `save_as_csv` from test/reference/convert_nist_data.py: the parsed columns
 * written as a header row `energy_keV,f1,f2` followed by one row per index.
 * The rows are kept as cells; how `csv.writer` renders a number or quotes a
 * field is not modelled, and neither is the file it writes to.
 */
module NistCsv {
  import opened Wrappers
  import opened NistParse
  import opened NistProperties

  datatype Cell = Text(text: string) | Number(value: real)

  const Header: seq<Cell> := [Text("energy_keV"), Text("f1"), Text("f2")]

  function RowAt(e: seq<real>, f1: seq<real>, f2: seq<real>, i: nat): seq<Cell>
    requires i < |e| && i < |f1| && i < |f2|
  {
    [Number(e[i]), Number(f1[i]), Number(f2[i])]
  }

  /** `rows` is the table written for the columns: the header, then row i is entry i of each column. */
  predicate IsTableOf(rows: seq<seq<Cell>>, e: seq<real>, f1: seq<real>, f2: seq<real>) {
    && |f1| >= |e| && |f2| >= |e|
    && |rows| == |e| + 1
    && rows[0] == Header
    && forall i :: 0 <= i < |e| ==> rows[i + 1] == RowAt(e, f1, f2, i)
  }

  /**
   * The rows `save_as_csv` writes: the header, then one row for each index
   * of `energy_keV`. Indexing `f1` and `f2` at those indexes is what the
   * source requires of them.
   */
  method SaveAsCsv(data: NistData) returns (rows: seq<seq<Cell>>)
    requires |data.f1| >= |data.energyKeV| && |data.f2| >= |data.energyKeV|
    ensures IsTableOf(rows, data.energyKeV, data.f1, data.f2)
  {
    rows := [Header];
    for i := 0 to |data.energyKeV|
      invariant |rows| == i + 1 && rows[0] == Header
      invariant forall k :: 0 <= k < i ==> rows[k + 1] == RowAt(data.energyKeV, data.f1, data.f2, k)
    {
      rows := rows + [[Number(data.energyKeV[i]), Number(data.f1[i]), Number(data.f2[i])]];
    }
  }

  /** Reads one data row back: exactly three numbers. */
  function ReadRow(row: seq<Cell>): Option<(real, real, real)> {
    if |row| == 3 && row[0].Number? && row[1].Number? && row[2].Number?
    then Some((row[0].value, row[1].value, row[2].value))
    else None
  }

  /** Reads data rows back into three columns; `None` unless every row is three numbers. */
  function ReadRows(rows: seq<seq<Cell>>): Option<(seq<real>, seq<real>, seq<real>)> {
    if rows == [] then Some(([], [], []))
    else
      match (ReadRow(rows[0]), ReadRows(rows[1..]))
      case (Some((e, a, b)), Some((es, f1s, f2s))) => Some(([e] + es, [a] + f1s, [b] + f2s))
      case _ => None
  }

  /** Reads a whole table back: the header, then the data rows. */
  function ReadTable(rows: seq<seq<Cell>>): Option<(seq<real>, seq<real>, seq<real>)> {
    if rows != [] && rows[0] == Header then ReadRows(rows[1..]) else None
  }

  lemma {:induction false} ReadRowsInverts(rows: seq<seq<Cell>>, e: seq<real>, f1: seq<real>, f2: seq<real>)
    requires |rows| == |e| && |f1| == |e| && |f2| == |e|
    requires forall i :: 0 <= i < |e| ==> rows[i] == RowAt(e, f1, f2, i)
    ensures ReadRows(rows) == Some((e, f1, f2))
    decreases |e|
  {
    if e != [] {
      assert forall i :: 0 <= i < |e| - 1 ==> rows[1..][i] == rows[i + 1];
      ReadRowsInverts(rows[1..], e[1..], f1[1..], f2[1..]);
      assert rows[0] == [Number(e[0]), Number(f1[0]), Number(f2[0])];
      assert e == [e[0]] + e[1..] && f1 == [f1[0]] + f1[1..] && f2 == [f2[0]] + f2[1..];
    }
  }

  /**
   * Reading back the table `save_as_csv` writes gives the columns it was
   * written from (cut to the length of `energy_keV`).
   */
  lemma TableRoundTrip(rows: seq<seq<Cell>>, e: seq<real>, f1: seq<real>, f2: seq<real>)
    requires IsTableOf(rows, e, f1, f2)
    ensures ReadTable(rows) == Some((e, f1[..|e|], f2[..|e|]))
  {
    var f1', f2' := f1[..|e|], f2[..|e|];
    forall i | 0 <= i < |e|
      ensures rows[1..][i] == RowAt(e, f1', f2', i)
    {
      assert rows[1..][i] == rows[i + 1] == RowAt(e, f1, f2, i);
      assert f1'[i] == f1[i] && f2'[i] == f2[i];
    }
    ReadRowsInverts(rows[1..], e, f1', f2');
  }

  /**
   * The table written for a parsed file: one header row and one row per
   * accepted data line, in file order, and reading it back gives the
   * parsed columns.
   */
  lemma TableOfParsedFile(lines: seq<string>, num: NumberParsers, rows: seq<seq<Cell>>)
    requires ParseNist(lines, num).Ok?
    requires var d := ParseNist(lines, num).value; IsTableOf(rows, d.energyKeV, d.f1, d.f2)
    ensures |rows| == |RowsOf(lines, num)| + 1 && rows[0] == Header
    ensures forall i :: 0 <= i < |RowsOf(lines, num)| ==>
      var row := RowsOf(lines, num)[i];
      rows[i + 1] == [Number(row.0), Number(row.1), Number(row.2)]
    ensures var d := ParseNist(lines, num).value; ReadTable(rows) == Some((d.energyKeV, d.f1, d.f2))
  {
    var d := ParseNist(lines, num).value;
    var rs := RowsOf(lines, num);
    assert d == Assemble(Run(lines, num).value);
    RunColumnsAreRows(lines, num);
    assert |d.energyKeV| == |d.f1| == |d.f2| == |rs|;
    forall i | 0 <= i < |rs|
      ensures rows[i + 1] == [Number(rs[i].0), Number(rs[i].1), Number(rs[i].2)]
    {
      assert rs[i] == (d.energyKeV[i], d.f1[i], d.f2[i]);
      assert rows[i + 1] == RowAt(d.energyKeV, d.f1, d.f2, i);
    }
    TableRoundTrip(rows, d.energyKeV, d.f1, d.f2);
    assert d.f1[..|d.energyKeV|] == d.f1 && d.f2[..|d.energyKeV|] == d.f2;
  }
}
