/** The CAR scraper: every run empties its output file, then, for each
    asset page, zips the corrective-action table's header cells with each
    body row's cells into an entry, merges the asset metadata, the entry
    and a timestamp into one record, and appends it tagged with the run's
    `loopId`. */
module CarScraper {

  import opened Options
  import opened Text
  import opened Records
  import opened PageMeta

  /** The corrective-action table as the page shows it: the `innerText` of
      each `thead th`, and for each `tbody tr` the `innerText` of its `td`s. */
  datatype Table = Table(headers: seq<string>, rows: seq<seq<string>>)

  /** An asset page: its metadata elements (see `PageMeta.Meta`) and its
      table, `None` when the page has no `table` element. */
  datatype CarPage = CarPage(
    name: Option<string>, location: Option<string>, spans: seq<string>, table: Option<Table>)

  /** `th.innerText.trim().toUpperCase().replace(/\s+/g, '_')` */
  function NormalizeHeader(th: string): string {
    ReplaceSpaceRuns(ToUpper(Trim(th)))
  }

  /** A text without whitespace is its own trim. */
  lemma TrimNoSpace(s: string)
    requires NoSpace(s)
    ensures Trim(s) == s
  {
  }

  /** Upper-casing leaves a text without lower-case letters unchanged. */
  lemma ToUpperNoLower(s: string)
    requires forall c :: c in s ==> !IsLowerAscii(c)
    ensures ToUpper(s) == s
  {
    assert forall i :: 0 <= i < |s| ==> s[i] in s;
  }

  /** Upper-casing leaves no lower-case letter. */
  lemma ToUpperLeavesNoLower(s: string)
    ensures forall c :: c in ToUpper(s) ==> !IsLowerAscii(c)
  {
    forall c | c in ToUpper(s) ensures !IsLowerAscii(c) {
      var i :| 0 <= i < |s| && ToUpper(s)[i] == c;
    }
  }

  /** Replacing whitespace runs adds no lower-case letter. */
  lemma ReplaceSpaceRunsNoLower(s: string)
    requires forall c :: c in s ==> !IsLowerAscii(c)
    ensures forall c :: c in ReplaceSpaceRuns(s) ==> !IsLowerAscii(c)
  {
    forall c | c in ReplaceSpaceRuns(s) ensures !IsLowerAscii(c) {
      ReplaceSpaceRunsChars(s, c);
    }
  }

  /** A normalised header has no whitespace and no lower-case letter, and
      it is empty exactly when the header cell holds only whitespace. */
  lemma NormalizedHeaderShape(th: string)
    ensures NoSpace(NormalizeHeader(th))
    ensures forall c :: c in NormalizeHeader(th) ==> !IsLowerAscii(c)
    ensures NormalizeHeader(th) == [] <==> AllSpace(th)
  {
    var t := Trim(th);
    var up := ToUpper(t);
    ToUpperLeavesNoLower(t);
    ReplaceSpaceRunsNoLower(up);
    ReplaceSpaceRunsEmpty(up);
    assert up == [] <==> t == [];
    TrimSpec(th);
  }

  /** Normalising a normalised header changes nothing. */
  lemma NormalizeHeaderIdempotent(th: string)
    ensures NormalizeHeader(NormalizeHeader(th)) == NormalizeHeader(th)
  {
    var h := NormalizeHeader(th);
    NormalizedHeaderShape(th);
    TrimNoSpace(h);
    ToUpperNoLower(h);
  }

  /** A text without lower-case letters differs from any text with one. */
  lemma NotLowerWord(h: string, w: string)
    requires forall c :: c in h ==> !IsLowerAscii(c)
    requires w != [] && IsLowerAscii(w[0])
    ensures h != w
  {
  }

  /** A text without lower-case letters is none of the field names the
      scrapers add themselves: each of those starts with a lower-case letter. */
  lemma NoLowerNotReserved(h: string)
    requires forall c :: c in h ==> !IsLowerAscii(c)
    ensures h !in MetaKeys + {"loopId", "timestamp"}
  {
    NotLowerWord(h, "assetName");
    NotLowerWord(h, "cartridgeLocation");
    NotLowerWord(h, "serialNumber");
    NotLowerWord(h, "loopId");
    NotLowerWord(h, "timestamp");
  }

  /** No normalised header can be one of the field names the scraper adds
      itself. */
  lemma HeaderNotReserved(th: string)
    ensures NormalizeHeader(th) !in MetaKeys + {"loopId", "timestamp"}
  {
    NormalizedHeaderShape(th);
    NoLowerNotReserved(NormalizeHeader(th));
  }

  /** `cells[i] || 'N/A'` */
  function CellOr(cells: seq<string>, i: nat): string {
    if i < |cells| && cells[i] != "" then cells[i] else "N/A"
  }

  /** The entry for one row: `headers.forEach((h, i) => { entry[h] =
      cells[i] || 'N/A'; })` with the assignments made in header order. */
  function Zip(headers: seq<string>, cells: seq<string>): Record
  {
    if headers == [] then map[]
    else Zip(headers[..|headers| - 1], cells)[headers[|headers| - 1] := Str(CellOr(cells, |headers| - 1))]
  }

  /** An entry has exactly one key per distinct header, and every value a
      non-empty text. */
  lemma {:induction false} ZipKeys(headers: seq<string>, cells: seq<string>)
    ensures Zip(headers, cells).Keys == set h | h in headers
    ensures forall k :: k in Zip(headers, cells) ==> Truthy(Zip(headers, cells)[k])
  {
    if headers != [] {
      var n := |headers| - 1;
      ZipKeys(headers[..n], cells);
      assert headers == headers[..n] + [headers[n]];
    }
  }

  /** A header maps to the cell of its last column, or `N/A` when that
      cell is missing or empty. */
  lemma {:induction false} ZipLastColumnWins(headers: seq<string>, cells: seq<string>, i: nat)
    requires i < |headers|
    requires forall j :: i < j < |headers| ==> headers[j] != headers[i]
    ensures headers[i] in Zip(headers, cells)
    ensures Zip(headers, cells)[headers[i]] ==
      Str(if i < |cells| && cells[i] != "" then cells[i] else "N/A")
  {
    var n := |headers| - 1;
    if i < n {
      ZipLastColumnWins(headers[..n], cells, i);
    }
  }

  /** Cells beyond the last header do not reach the entry. */
  lemma {:induction false} ZipIgnoresExtraCells(headers: seq<string>, cells: seq<string>)
    requires |headers| <= |cells|
    ensures Zip(headers, cells) == Zip(headers, cells[..|headers|])
  {
    if headers != [] {
      var n := |headers| - 1;
      ZipIgnoresExtraCells(headers[..n], cells);
      ZipPrefixCells(headers[..n], cells, |headers|);
      assert CellOr(cells, n) == CellOr(cells[..|headers|], n);
    }
  }

  lemma {:induction false} ZipPrefixCells(headers: seq<string>, cells: seq<string>, m: nat)
    requires |headers| <= m <= |cells|
    ensures Zip(headers, cells) == Zip(headers, cells[..m])
  {
    if headers != [] {
      var n := |headers| - 1;
      ZipPrefixCells(headers[..n], cells, m);
      assert CellOr(cells, n) == CellOr(cells[..m], n);
    }
  }

  /** The `forEach` that fills one entry. */
  method ZipEntry(headers: seq<string>, cells: seq<string>) returns (entry: Record)
    ensures entry == Zip(headers, cells)
  {
    entry := map[];
    for i := 0 to |headers|
      invariant entry == Zip(headers[..i], cells)
    {
      assert headers[..i + 1][..i] == headers[..i];
      entry := entry[headers[i] := Str(CellOr(cells, i))];
    }
    assert headers[..|headers|] == headers;
  }

  /** `Array.from(row.querySelectorAll('td')).map(td => td.innerText.trim())` */
  function Cells(tds: seq<string>): (cells: seq<string>)
    ensures |cells| == |tds|
    ensures forall i :: 0 <= i < |tds| ==> cells[i] == Trim(tds[i])
  {
    seq(|tds|, i requires 0 <= i < |tds| => Trim(tds[i]))
  }

  /** `headers`: the table's header cells, each normalised. */
  function Headers(t: Table): (hs: seq<string>)
    ensures |hs| == |t.headers|
    ensures forall i :: 0 <= i < |t.headers| ==> hs[i] == NormalizeHeader(t.headers[i])
  {
    seq(|t.headers|, i requires 0 <= i < |t.headers| => NormalizeHeader(t.headers[i]))
  }

  /** The entries of a table: one per body row, in row order; none at all
      when the page has no table. Entry `i` zips row `i`'s cells under the
      normalised headers. */
  function Entries(table: Option<Table>): (es: seq<Record>)
    ensures table.None? ==> es == []
    ensures table.Some? ==> |es| == |table.value.rows|
    ensures table.Some? ==> forall i :: 0 <= i < |es| ==>
      es[i] == Zip(Headers(table.value), Cells(table.value.rows[i]))
  {
    if table.None? then []
    else
      seq(|table.value.rows|, i requires 0 <= i < |table.value.rows| =>
        Zip(Headers(table.value), Cells(table.value.rows[i])))
  }

  /** Field `k` of the entry built from row `i` is the row's cell under the
      last header normalised to `k`, or `N/A` when that cell is missing or
      empty. */
  lemma EntryField(t: Table, i: nat, j: nat)
    requires i < |t.rows| && j < |t.headers|
    requires forall m :: j < m < |t.headers| ==> NormalizeHeader(t.headers[m]) != NormalizeHeader(t.headers[j])
    ensures var e := Entries(Some(t))[i];
      && NormalizeHeader(t.headers[j]) in e
      && e[NormalizeHeader(t.headers[j])] ==
         Str(if j < |t.rows[i]| && Trim(t.rows[i][j]) != "" then Trim(t.rows[i][j]) else "N/A")
  {
    var hs := Headers(t);
    ZipLastColumnWins(hs, Cells(t.rows[i]), j);
  }

  /** The keys of every entry are normalised headers of the table. */
  lemma EntryKeys(table: Option<Table>, i: nat, k: string)
    requires i < |Entries(table)| && k in Entries(table)[i]
    ensures exists th :: th in table.value.headers && k == NormalizeHeader(th)
  {
    var t := table.value;
    var headers := Headers(t);
    ZipKeys(headers, Cells(t.rows[i]));
    var j :| 0 <= j < |headers| && headers[j] == k;
    assert t.headers[j] in t.headers;
  }

  /** `{ ...meta, ...row, timestamp: new Date().toISOString() }` */
  function Merge(meta: Record, row: Record, timestamp: string): Record {
    (meta + row)["timestamp" := Str(timestamp)]
  }

  /** In a merged record the row's fields override the metadata and the
      timestamp overrides both. */
  lemma MergeOverrides(meta: Record, row: Record, timestamp: string, k: string)
    ensures var m := Merge(meta, row, timestamp);
      && (k in m <==> k in meta || k in row || k == "timestamp")
      && (k == "timestamp" ==> m[k] == Str(timestamp))
      && (k != "timestamp" && k in row ==> m[k] == row[k])
      && (k != "timestamp" && k !in row && k in meta ==> m[k] == meta[k])
  {
  }

  /** The records of one asset page: one per table row, in row order.
      `clock(a, j)` is the time read while mapping row `j` of asset `a`. */
  function AssetRecords(page: CarPage, a: nat, clock: (nat, nat) -> string): (rs: seq<Record>)
    ensures |rs| == |Entries(page.table)|
  {
    var meta := Meta(page.name, page.location, page.spans);
    var es := Entries(page.table);
    seq(|es|, j requires 0 <= j < |es| => Merge(meta, es[j], clock(a, j)))
  }

  /** Every record of an asset keeps all its metadata fields and row
      fields unchanged (their names never clash) and carries the time it
      was read; none has a `loopId`. */
  lemma AssetRecordFields(page: CarPage, a: nat, clock: (nat, nat) -> string, j: nat, k: string)
    requires j < |AssetRecords(page, a, clock)|
    ensures var r := AssetRecords(page, a, clock)[j];
      var meta := Meta(page.name, page.location, page.spans);
      var row := Entries(page.table)[j];
      && "loopId" !in r
      && "timestamp" in r && r["timestamp"] == Str(clock(a, j))
      && (k in meta ==> k in r && r[k] == meta[k])
      && (k in row ==> k in r && r[k] == row[k])
  {
    var meta := Meta(page.name, page.location, page.spans);
    var row := Entries(page.table)[j];
    var ts := clock(a, j);
    assert AssetRecords(page, a, clock)[j] == Merge(meta, row, ts);
    if k in row {
      RowKeyNotReserved(page.table, j, k);
    }
    if "loopId" in row {
      RowKeyNotReserved(page.table, j, "loopId");
    }
    MergedFields(meta, row, ts, k);
  }

  /** Merging metadata and a row whose names do not clash keeps both. */
  lemma MergedFields(meta: Record, row: Record, ts: string, k: string)
    requires meta.Keys <= MetaKeys && "loopId" !in row
    requires k in row ==> k !in MetaKeys + {"loopId", "timestamp"}
    ensures var r := Merge(meta, row, ts);
      && "loopId" !in r
      && "timestamp" in r && r["timestamp"] == Str(ts)
      && (k in meta ==> k in r && r[k] == meta[k])
      && (k in row ==> k in r && r[k] == row[k])
  {
    MergeOverrides(meta, row, ts, k);
    MergeOverrides(meta, row, ts, "loopId");
    MergeOverrides(meta, row, ts, "timestamp");
  }

  /** No field of an entry is named like a field the scraper adds. */
  lemma RowKeyNotReserved(table: Option<Table>, j: nat, k: string)
    requires j < |Entries(table)| && k in Entries(table)[j]
    ensures k !in MetaKeys + {"loopId", "timestamp"}
  {
    EntryKeys(table, j, k);
    var th :| th in table.value.headers && k == NormalizeHeader(th);
    HeaderNotReserved(th);
  }

  /** `{ loopId, ...r }` */
  function Tag(loopId: string, r: Record): Record {
    map["loopId" := Str(loopId)] + r
  }

  function TagAll(loopId: string, rs: seq<Record>): seq<Record> {
    seq(|rs|, j requires 0 <= j < |rs| => Tag(loopId, rs[j]))
  }

  /** The inner loop of one asset: `for (const r of records)
      fs.appendFileSync(outFile, JSON.stringify({ loopId, ...r }) + '\n')`. */
  method AppendTagged(log: Log, loopId: string, records: seq<Record>)
    modifies log
    ensures log.records == old(log.records) + TagAll(loopId, records)
  {
    ghost var added := TagAll(loopId, records);
    for j := 0 to |records|
      invariant log.records == old(log.records) + added[..j]
    {
      log.Append(Tag(loopId, records[j]));
      assert added[..j + 1] == added[..j] + [added[j]];
    }
    assert added[..|records|] == added;
  }

  /** What asset `a` adds to the run's file: its records tagged with the
      run's `loopId`, or nothing when its scrape threw (`None`).
      `clock(a, j)` is the time read for its row `j`. */
  function PageRecords(loopId: string, page: Option<CarPage>, a: nat, clock: (nat, nat) -> string)
    : seq<Record>
  {
    match page
    case None => []
    case Some(p) => TagAll(loopId, AssetRecords(p, a, clock))
  }

  /** Every record an asset adds carries the run's `loopId` and the time
      its row was read. */
  lemma PageRecordsTagged(loopId: string, page: Option<CarPage>, a: nat, clock: (nat, nat) -> string, j: nat)
    requires j < |PageRecords(loopId, page, a, clock)|
    ensures var r := PageRecords(loopId, page, a, clock)[j];
      "loopId" in r && r["loopId"] == Str(loopId) && "timestamp" in r && r["timestamp"] == Str(clock(a, j))
  {
    AssetRecordFields(page.value, a, clock, j, "loopId");
  }

  /** The records of one run, in asset order. */
  function RunRecords(loopId: string, pages: seq<Option<CarPage>>, clock: (nat, nat) -> string)
    : seq<Record>
  {
    if pages == [] then []
    else
      RunRecords(loopId, pages[..|pages| - 1], clock) + PageRecords(loopId, pages[|pages| - 1], |pages| - 1, clock)
  }

  /** The number of table rows over the assets that were scraped. */
  function RowCount(pages: seq<Option<CarPage>>): nat {
    if pages == [] then 0
    else
      RowCount(pages[..|pages| - 1]) +
        match pages[|pages| - 1]
        case Some(CarPage(_, _, _, Some(t))) => |t.rows|
        case _ => 0
  }

  /** A run writes one record per table row of every asset that succeeded. */
  lemma {:induction false} RunRecordsCount(loopId: string, pages: seq<Option<CarPage>>, clock: (nat, nat) -> string)
    ensures |RunRecords(loopId, pages, clock)| == RowCount(pages)
  {
    if pages != [] {
      RunRecordsCount(loopId, pages[..|pages| - 1], clock);
    }
  }

  /** Every record of the run carries the run's `loopId` and a `timestamp`. */
  lemma {:induction false} RunRecordsTagged(
    loopId: string, pages: seq<Option<CarPage>>, clock: (nat, nat) -> string, i: nat)
    requires i < |RunRecords(loopId, pages, clock)|
    ensures var r := RunRecords(loopId, pages, clock)[i];
      "loopId" in r && r["loopId"] == Str(loopId) && "timestamp" in r
  {
    var a := |pages| - 1;
    var front := RunRecords(loopId, pages[..a], clock);
    if i < |front| {
      RunRecordsTagged(loopId, pages[..a], clock, i);
    } else {
      PageRecordsTagged(loopId, pages[a], a, clock, i - |front|);
    }
  }

  /** One run: empty the output file, then append every record of every
      asset, tagged with the run's `loopId`. */
  method ScrapeAllAssets(log: Log, loopId: string, pages: seq<Option<CarPage>>, clock: (nat, nat) -> string)
    modifies log
    ensures log.records == RunRecords(loopId, pages, clock)
  {
    log.Truncate();
    for a := 0 to |pages|
      invariant log.records == RunRecords(loopId, pages[..a], clock)
    {
      assert pages[..a + 1][..a] == pages[..a];
      if pages[a].Some? {
        var records := AssetRecords(pages[a].value, a, clock);
        AppendTagged(log, loopId, records);
      }
    }
    assert pages[..|pages|] == pages;
  }
}
