/** The dashboard table: every record of the dashboard history becomes one
    row of eight cells, in a fixed column order. */
module DashboardTable {

  import opened Options
  import opened Text
  import opened Records

  /** `headerCols` */
  const HeaderCols: seq<string> := [
    "timestamp", "assetName", "EFFECTIVE TESTS", "ONBOARD DAYS",
    "ONBOARD STABILITY", "LAST INSERTION", "serialNumber", "cartridgeLocation"]

  /** `.filter(Boolean)`: drops the empty lines. */
  function NonEmpty(ls: seq<Line>): (r: seq<Line>)
    ensures |r| <= |ls|
    ensures forall i :: 0 <= i < |r| ==> r[i] != Text("")
  {
    if ls == [] then []
    else (if ls[0] == Text("") then [] else [ls[0]]) + NonEmpty(ls[1..])
  }

  /** Filtering a concatenation filters each part in turn. */
  lemma {:induction false} NonEmptyAppend(a: seq<Line>, b: seq<Line>)
    ensures NonEmpty(a + b) == NonEmpty(a) + NonEmpty(b)
  {
    if a != [] {
      assert (a + b)[0] == a[0];
      assert (a + b)[1..] == a[1..] + b;
      NonEmptyAppend(a[1..], b);
      AppendAssoc(if a[0] == Text("") then [] else [a[0]], NonEmpty(a[1..]), NonEmpty(b));
    } else {
      assert a + b == b;
    }
  }

  /** A line is dropped exactly when it is empty; with `NonEmptyAppend`,
      every other line stays, in order. */
  lemma NonEmptyLine(l: Line)
    ensures NonEmpty([l]) == if l == Text("") then [] else [l]
  {
    assert [l][1..] == [];
  }

  /** Lines none of which is empty all stay. */
  lemma {:induction false} NonEmptyKeeps(ls: seq<Line>)
    requires forall i :: 0 <= i < |ls| ==> ls[i] != Text("")
    ensures NonEmpty(ls) == ls
  {
    if ls != [] {
      NonEmptyKeeps(ls[1..]);
    }
  }

  /** `readFileSync(f).trim().split('\n').filter(Boolean).map(JSON.parse)` */
  function ReadRecords(file: seq<Line>): Result<seq<Record>> {
    ParseAll(NonEmpty(TrimSplit(file)))
  }

  /** A history the dashboard scraper wrote reads back as its records, and
      an empty history as no records at all. */
  lemma ReadLog(rs: seq<Record>)
    ensures ReadRecords(LogLines(rs)) == Ok(rs)
  {
    TrimSplitLog(rs);
    var t := TrimSplit(LogLines(rs));
    if rs == [] {
      assert NonEmpty(t) == [];
    } else {
      NonEmptyKeeps(t);
      ReadStrictLog(rs);
    }
  }

  /** `${r[c] ?? ''}` */
  function Cell(r: Record, c: string): (s: string)
    ensures c !in r ==> s == ""
    ensures c in r && r[c].Null? ==> s == ""
    ensures c in r && r[c].Str? ==> s == r[c].s
  {
    OrElse(Get(r, c), "")
  }

  /** The cells of one record, in `headerCols` order. */
  function RowCells(r: Record): (cs: seq<string>)
    ensures |cs| == |HeaderCols|
    ensures forall i :: 0 <= i < |HeaderCols| ==> cs[i] == Cell(r, HeaderCols[i])
  {
    seq(|HeaderCols|, i requires 0 <= i < |HeaderCols| => Cell(r, HeaderCols[i]))
  }

  /** The header row: `headerCols.map(c => `<th>${c}</th>`)`. */
  function HeaderRow(): seq<string> {
    HeaderCols
  }

  /** The table body: one row per record, in file order. */
  function Rows(rs: seq<Record>): (rows: seq<seq<string>>)
    ensures |rows| == |rs|
    ensures forall j :: 0 <= j < |rs| ==> rows[j] == RowCells(rs[j])
  {
    seq(|rs|, j requires 0 <= j < |rs| => RowCells(rs[j]))
  }

  /** Every row has eight cells, one under each header, and a history
      written by the scraper yields one row per record. */
  lemma TableShape(rs: seq<Record>, j: nat)
    requires j < |rs|
    ensures var rows := Rows(rs);
      && |rows[j]| == |HeaderRow()| == 8
      && (forall i :: 0 <= i < 8 ==> rows[j][i] == OrElse(Get(rs[j], HeaderRow()[i]), ""))
    ensures ReadRecords(LogLines(rs)).Ok? && |Rows(ReadRecords(LogLines(rs)).value)| == |rs|
  {
    ReadLog(rs);
  }
}
