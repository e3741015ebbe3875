# gem5000 record wrangling, modelled in Dafny

The repository scrapes telemetry of gem5000 analysers from a vendor web
dashboard. It keeps the scraped records as NDJSON logs and turns them into
static HTML reports. This project models the record logic of those scripts
and proves properties of it:

- **The dashboard scraper** (`scripts/dashboard/index.js`) reads each asset
  page into one record. The record holds metadata (name, location, serial
  number) and the accepted cartridge cards. Records with `EFFECTIVE TESTS`
  are kept and stamped with the run's start time. They are then appended to
  `dashboard-history.ndjson`.
- **The CAR scraper** (`scripts/car/index-iqm-overwrite.js`) needs more
  steps per asset page:
  - it normalises the corrective-action table's headers;
  - it zips every body row with the headers into an entry;
  - it merges each entry with the page metadata and a timestamp.

  Each run empties `iqm-corrective-action.ndjson`, then appends this run's
  records, tagged with its `loopId`. This log is therefore not append-only,
  unlike the dashboard history, and the model follows the code here.
- **The chart generator** (`scripts/dashboard/generateChart.js`) works in
  three steps:
  - it parses each history line into a point;
  - it keeps, per asset and calendar day, the reading with the greatest
    timestamp;
  - it lays the kept readings out on one sorted time axis, with one `data`
    array and one `serials` array per asset.
- **The CAR summary report**
  (`generateIQMTable-aggregated-by-cartridge-with-total-and-percent.js`)
  counts records per asset, cartridge and (EVENT, CORRECTIVE_ACTION, RESULT)
  combination. It renders these counts with per-cartridge totals and
  rounded percentages.
- **The CAR corrective report** (`generateIQMTable-corrective-incluido.js`)
  groups the records per asset, keeping them in file order. It renders one
  five-cell row per record.
- **The dashboard table** (`generateTable-fechas-corregidas.js`) renders
  one eight-cell row per history record.

Modelling conventions:

- **Records.** A record is a map from field name to a JSON string or
  `null`. A field that is missing reads as `undefined` (`Records.Val`).
- **Files.** An NDJSON file is a sequence of lines. A line either holds a
  JSON object or holds text that `JSON.parse` rejects. A file written only
  by the scrapers is `Records.LogLines`: one line per record, then the
  empty text after the final newline.
- **Output files.** An output file the scrapers write is a `Records.Log`
  object whose `records` field the scrapers extend in place.
- **The page.** Each asset page comes as the `innerText` strings its
  selectors find, for example `DashboardScraper.AssetPage` and
  `CarScraper.CarPage`. A failing page is `None`.
- **Outside inputs.** `new Date(value)` and the clock are parameters:
  `parse` yields day, 0-based month and year, `loopId` is the run's start
  time, and `clock(a, j)` is the time read for row `j` of asset `a`.
- **Key order.** The order in which JavaScript enumerates an object's keys
  is not modelled: `Records.Enumerate` may list the keys in any
  duplicate-free order. No claim here depends on that order.

Modules:

| module | file | contents |
|---|---|---|
| `Options` | `options.dfy` | `Option` and `Result` |
| `Text` | `text.dfy` | the JavaScript string operations the scripts use |
| `Records` | `records.dfy` | records, NDJSON lines, strict reading, the output log |
| `Serial` | `serial.dfy` | serial number extraction, shared by both scrapers |
| `PageMeta` | `page_meta.dfy` | the metadata record, shared by both scrapers |
| `DashboardScraper` | `dashboard_scraper.dfy` | the dashboard scraper |
| `CarScraper` | `car_scraper.dfy` | the CAR scraper |
| `Chart` | `chart.dfy` | the chart generator |
| `CartridgeSummary` | `cartridge_summary.dfy` | the CAR summary report |
| `CorrectiveTable` | `corrective_table.dfy` | the CAR corrective report |
| `DashboardTable` | `dashboard_table.dfy` | the dashboard table |

## Model

| member | source | states |
|---|---|---|
| Text.TrimSpec | scripts/dashboard/index.js:59-63 | `trim` leaves no whitespace at either end, and gives the empty string exactly for an all-whitespace text |
| Text.TrimIdempotent | scripts/dashboard/index.js:79-80 | trimming a trimmed text changes nothing |
| Text.IndexOfSpec | scripts/dashboard/index.js:71-72 | the position `replace` with a string pattern uses is an occurrence of the pattern, and no occurrence starts earlier |
| Text.TrimAfterLabel | scripts/dashboard/index.js:71-73 | when the trimmed text starts with a label, removing its first occurrence and trimming leaves the trimmed text after the label |
| Text.RemoveAllSpec | scripts/dashboard/index.js:74 | `replace(/"/g, '')` leaves no `"`, and leaves a text without `"` unchanged |
| Text.RemoveAllAppend | scripts/dashboard/index.js:74 | removing `"` from a concatenation removes it from each part, so the result is built character by character |
| Text.RemoveAllChar | scripts/dashboard/index.js:74 | a single character disappears exactly when it is `"`; with the previous row, every other character stays, in order |
| Text.ReplaceSpaceRuns | scripts/car/index-iqm-overwrite.js:49 | `replace(/\s+/g, '_')` leaves no whitespace, and leaves a text without whitespace unchanged |
| Text.ReplaceSpaceRunsChars | scripts/car/index-iqm-overwrite.js:49 | every character of the result is a character of the input or `_` |
| Text.TrimStartSpace | scripts/car/index-iqm-overwrite.js:49 | a run of whitespace before a non-space character is exactly what is skipped as one run |
| Text.ReplaceSpaceRunsRun | scripts/car/index-iqm-overwrite.js:49 | a maximal run of whitespace, however long, becomes exactly one `_` |
| Text.ReplaceSpaceRunsKeep | scripts/car/index-iqm-overwrite.js:49 | a character that is not whitespace is kept where it is |
| Text.BeforeFirst | scripts/dashboard/generateChart.js:10 | `split('/')[0]` is the longest prefix without `/`, ended by the first `/` or the end of the text |
| Text.StrLtTransitive | scripts/dashboard/generateChart.js:29 | string `<` is transitive |
| Text.StrLtTotal | scripts/dashboard/generateChart.js:29 | of two different strings, one is smaller |
| Text.StrLtAsymmetric | scripts/dashboard/generateChart.js:29 | string `<` is asymmetric |
| Text.Insert | scripts/dashboard/generateChart.js:48-50 | inserting into a strictly sorted sequence keeps it strictly sorted, adding exactly the new element |
| Text.StrictlySortedUnique | scripts/dashboard/generateChart.js:48-50 | two strictly sorted sequences with the same elements are equal, so the sorted set of timestamps is unique |
| Text.NatToStringRoundTrip | scripts/dashboard/index.js:99-101 | reading back the decimal text of a number gives the number |
| Text.Pad2 | scripts/dashboard/index.js:99-100 | `padStart(2, '0')` adds zeros in front up to length 2 and keeps the text as its suffix |
| Serial.SerialNumber | scripts/dashboard/index.js:66-75 | the serial number is present exactly when at least two spans start with `Serial Number:`, and it holds no `"` |
| Serial.SecondSerialSpanWins | scripts/dashboard/index.js:67-74 | the serial is the cleaned text of the second matching span, whatever the spans around it hold |
| Serial.AtMostOneSerialSpan | scripts/dashboard/index.js:70 | with at most one matching span, there is no serial number |
| Serial.CleanSerialDropsLabel | scripts/car/index-iqm-overwrite.js:74-78 | cleaning removes the label that follows the leading whitespace, trims what is left and drops every `"` |
| PageMeta.Field | scripts/dashboard/index.js:59-63 | a text field is kept exactly when it is present and non-empty after trimming, and it is then the trimmed text |
| PageMeta.SetField | scripts/dashboard/index.js:60 | `if (v) record[k] = v` adds exactly the field `k`, when there is a value, and changes nothing else |
| PageMeta.Meta | scripts/car/index-iqm-overwrite.js:62-81 | the metadata record has only `assetName`, `cartridgeLocation` and `serialNumber`, each a string |
| PageMeta.MetaFields | scripts/dashboard/index.js:59-75 | each metadata field is present exactly under its own rule, with the trimmed non-empty text or the cleaned serial |
| DashboardScraper.Pad2Number | scripts/dashboard/index.js:99-101 | a number below 100, padded to two digits, is two digits that read back as the number |
| DashboardScraper.FormatDateShape | scripts/dashboard/index.js:96-103 | `LAST INSERTION` is `dd-mm-yyyy`, with the digits reading back as the day, the 1-based month and the (four-digit) year |
| DashboardScraper.CardField | scripts/dashboard/index.js:82-103 | a card can only set the field named by its own title, and only one of the four card fields |
| DashboardScraper.CardFieldRule | scripts/dashboard/index.js:82-103 | a card sets a field exactly when its value is non-empty and is either digits under a counter title or a valid date under `LAST INSERTION`; it stores the value or the formatted date |
| DashboardScraper.CounterField | scripts/dashboard/index.js:84-94 | a counter field is only ever set to a non-empty string of digits |
| DashboardScraper.Accepted | scripts/dashboard/index.js:79-82 | a card with a missing title or value sets nothing |
| DashboardScraper.CounterRule | scripts/dashboard/index.js:84-94 | through the page's card rule, a counter is only set to digits |
| DashboardScraper.ReadCards | scripts/dashboard/index.js:77-105 | the card loop's record is the metadata with the cards applied in card order |
| DashboardScraper.LastCardWins | scripts/dashboard/index.js:77-105 | of the cards setting a field, the last one in card order decides its value |
| DashboardScraper.NoCardSets | scripts/dashboard/index.js:77-105 | a field no card sets keeps its value from before the cards |
| DashboardScraper.CardsOnlySet | scripts/dashboard/index.js:77-105 | a field the cards changed holds the value some card set |
| DashboardScraper.CardKeysOnly | scripts/dashboard/index.js:77-105 | the cards add only card fields |
| DashboardScraper.ScrapedRecord | scripts/dashboard/index.js:56-108 | a scraped record holds only metadata and card fields, and its `EFFECTIVE TESTS`, when present, is a string of digits |
| DashboardScraper.Stamp | scripts/dashboard/index.js:159-163 | `{ loopId, timestamp: loopId, ...record }` keeps every field of the record and adds both stamps, which win where the record lacks them |
| DashboardScraper.PageRecordStamped | scripts/dashboard/index.js:157-163 | a kept record carries the run's start time as `loopId` and `timestamp`, and `EFFECTIVE TESTS` as digits |
| DashboardScraper.DroppedPage | scripts/dashboard/index.js:155-177 | an asset whose scrape throws, or that has no `EFFECTIVE TESTS`, contributes no record |
| DashboardScraper.RunRecordsFromPages | scripts/dashboard/index.js:154-178 | every record of the run is the record of one asset page |
| DashboardScraper.RunRecordsAppend | scripts/dashboard/index.js:154-178 | the records of two batches of assets are those of the first batch followed by those of the second, so the output follows asset-URL order |
| DashboardScraper.RunRecordsStamped | scripts/dashboard/index.js:158-163 | every record of the run has the run's start time as `loopId` and `timestamp` and a truthy `EFFECTIVE TESTS` |
| DashboardScraper.CollectRecords | scripts/dashboard/index.js:152-178 | the collecting loop gathers exactly the run's records, in asset order |
| DashboardScraper.ScrapeAllAssets | scripts/dashboard/index.js:180-182 | the history keeps its previous records and gains the run's records at the end |
| CarScraper.NormalizedHeaderShape | scripts/car/index-iqm-overwrite.js:48-50 | a normalised header has no whitespace and no lower-case letter, and it is empty exactly when the header cell is all whitespace |
| CarScraper.NormalizeHeaderIdempotent | scripts/car/index-iqm-overwrite.js:48-50 | normalising a normalised header changes nothing |
| CarScraper.HeaderNotReserved | scripts/car/index-iqm-overwrite.js:48-50 | no normalised header equals a field name the scraper adds itself |
| CarScraper.ZipKeys | scripts/car/index-iqm-overwrite.js:56 | an entry has exactly one key per distinct header, and every value is a non-empty text |
| CarScraper.ZipLastColumnWins | scripts/car/index-iqm-overwrite.js:56 | a header maps to the cell under its last column, or to `N/A` when that cell is missing or empty |
| CarScraper.ZipIgnoresExtraCells | scripts/car/index-iqm-overwrite.js:56 | cells beyond the last header do not reach the entry |
| CarScraper.ZipEntry | scripts/car/index-iqm-overwrite.js:55-57 | the `forEach` that fills an entry builds the zipped entry |
| CarScraper.Cells | scripts/car/index-iqm-overwrite.js:54 | there is one cell per `td`, each the trimmed text |
| CarScraper.Headers | scripts/car/index-iqm-overwrite.js:48-50 | there is one header per `thead th`, each the normalised header cell, in column order |
| CarScraper.Entries | scripts/car/index-iqm-overwrite.js:44-59 | there is one entry per body row, in row order, and none at all without a table; entry `i` zips row `i`'s trimmed cells under the normalised headers |
| CarScraper.EntryField | scripts/car/index-iqm-overwrite.js:53-57 | field `h` of row `i`'s entry is the trimmed cell of that row under the last column normalised to `h`, or `N/A` when that cell is missing or empty |
| CarScraper.EntryKeys | scripts/car/index-iqm-overwrite.js:48-57 | every key of an entry is a normalised header of the table |
| CarScraper.MergeOverrides | scripts/car/index-iqm-overwrite.js:83-87 | in a merged record, row fields override metadata and `timestamp` overrides both |
| CarScraper.AssetRecords | scripts/car/index-iqm-overwrite.js:83-87 | an asset page yields one record per table row |
| CarScraper.AssetRecordFields | scripts/car/index-iqm-overwrite.js:83-87 | every record keeps all its metadata and row fields unchanged, carries its reading time and has no `loopId` |
| CarScraper.AppendTagged | scripts/car/index-iqm-overwrite.js:137-139 | the inner loop appends the asset's records tagged with `loopId`, in order, after what the file held |
| CarScraper.PageRecordsTagged | scripts/car/index-iqm-overwrite.js:136-139 | every record an asset adds carries the run's `loopId` and its row's reading time |
| CarScraper.RunRecordsCount | scripts/car/index-iqm-overwrite.js:133-144 | a run writes one record per table row of every asset that succeeded |
| CarScraper.RunRecordsTagged | scripts/car/index-iqm-overwrite.js:137-139 | every record of the run carries the run's `loopId` and a `timestamp` |
| CarScraper.ScrapeAllAssets | scripts/car/index-iqm-overwrite.js:131-144 | after a run that got past the login, the file holds exactly this run's records, asset after asset, whatever it held before |
| Chart.FirstDigit | scripts/dashboard/generateChart.js:9 | finds the first digit, and is absent exactly when the text has none |
| Chart.LeadingDigits | scripts/dashboard/generateChart.js:9 | takes the maximal run of digits at the start of the text |
| Chart.EffectiveValue | scripts/dashboard/generateChart.js:9-16 | a missing or `null` `EFFECTIVE TESTS` gives `null` |
| Chart.EffectiveValueSpec | scripts/dashboard/generateChart.js:9-16 | `effectiveTests` is the value of the first maximal run of digits, and `null` exactly when the text has no digit |
| Chart.Location | scripts/dashboard/generateChart.js:10 | there is a location exactly when `cartridgeLocation` is a string |
| Chart.LocationSpec | scripts/dashboard/generateChart.js:10 | the location is the text before the first `/`, trimmed, or the whole text trimmed when it has no `/` |
| Chart.ParseLine | scripts/dashboard/generateChart.js:6-21 | `parseLine` yields a point exactly for a line `JSON.parse` accepts |
| Chart.ReadPoints | scripts/dashboard/generateChart.js:176-179 | the read loop collects the points of the lines that parse, in line order |
| Chart.PointsOfLog | scripts/dashboard/generateChart.js:171-179 | a history the scraper wrote gives exactly one point per record, in file order |
| Chart.DayKey | scripts/dashboard/generateChart.js:26 | the day key is the first 10 characters of the timestamp, or all of it when it is shorter |
| Chart.GroupByAssetAndDay | scripts/dashboard/generateChart.js:23-33 | the grouping loop throws exactly when a timestamp is not a string, and otherwise builds the fold of its steps |
| Chart.StepOther | scripts/dashboard/generateChart.js:25-32 | a step changes only its point's asset, and within it only its point's day |
| Chart.StepSame | scripts/dashboard/generateChart.js:28-31 | a step replaces its day's record only when there is none or its timestamp is strictly greater |
| Chart.FoldAssets | scripts/dashboard/generateChart.js:25-27 | the grouped assets are exactly the assets of the input |
| Chart.FoldLocation | scripts/dashboard/generateChart.js:27 | an asset's location is that of its first point |
| Chart.FoldDays | scripts/dashboard/generateChart.js:26-32 | an asset has one record for a day exactly when one of its points falls on that day |
| Chart.FoldWellKeyed | scripts/dashboard/generateChart.js:26-32 | every kept record is filed under its own day key |
| Chart.FoldKeepsLatest | scripts/dashboard/generateChart.js:28-31 | the kept record is that of a point with a timestamp `>=` all of its asset and day, the first one among equal timestamps |
| Chart.SortedTimestamps | scripts/dashboard/generateChart.js:48-50 | the labels are strictly sorted and are exactly the timestamps of the kept records |
| Chart.LabelIndex | scripts/dashboard/generateChart.js:62-64 | `timestampToIndex` maps a label to a position holding it, and has no entry for any other text |
| Chart.SeriesSpec | scripts/dashboard/generateChart.js:66-75 | both arrays have one slot per label, and slot `i` holds the reading, and the serial or `N/A`, of the asset's record timed at label `i`, or `null` |
| Chart.FillSeries | scripts/dashboard/generateChart.js:67-75 | filling the arrays in place yields exactly the arrays of that specification |
| Chart.ChartDatasets | scripts/dashboard/generateChart.js:66-86 | there is one dataset per asset, labelled with its name and location (or the empty string), holding its arrays |
| Chart.BuildChart | scripts/dashboard/generateChart.js:171-185 | `run` throws exactly when a point has no string timestamp; otherwise it yields the sorted axis and one dataset per asset |
| CartridgeSummary.AsJson | scripts/car/generateIQMTable-aggregated-by-cartridge-with-total-and-percent.js:35 | inside the key, a missing field and a `null` field both become `null` |
| CartridgeSummary.AggregateRecords | scripts/car/generateIQMTable-aggregated-by-cartridge-with-total-and-percent.js:10-40 | the aggregation loop builds the fold of its tallies |
| CartridgeSummary.TallyStored | scripts/car/generateIQMTable-aggregated-by-cartridge-with-total-and-percent.js:22-39 | a record adds one to its own counter and to no other, and is skipped without `assetName` or `CARTRIDGE` |
| CartridgeSummary.AggregateCounts | scripts/car/generateIQMTable-aggregated-by-cartridge-with-total-and-percent.js:31-39 | every stored count is the number of retained records with that asset, cartridge and key, and is at least 1 |
| CartridgeSummary.AggregateKeys | scripts/car/generateIQMTable-aggregated-by-cartridge-with-total-and-percent.js:22-33 | the assets, and each asset's cartridges, are exactly those of the retained records |
| CartridgeSummary.AggregateLocation | scripts/car/generateIQMTable-aggregated-by-cartridge-with-total-and-percent.js:24-29 | an asset's location is that of its first retained record |
| CartridgeSummary.Total | scripts/car/generateIQMTable-aggregated-by-cartridge-with-total-and-percent.js:68 | the `reduce` computes the sum of the counts of the listed keys |
| CartridgeSummary.CartridgeTotal | scripts/car/generateIQMTable-aggregated-by-cartridge-with-total-and-percent.js:68 | an enumerated cartridge's total, in any key order, is its number of retained records |
| CartridgeSummary.PercentRounds | scripts/car/generateIQMTable-aggregated-by-cartridge-with-total-and-percent.js:83 | the percent is the nearest integer to `100 * count / total`, with halves rounded up |
| CartridgeSummary.PercentBounds | scripts/car/generateIQMTable-aggregated-by-cartridge-with-total-and-percent.js:83 | a share of the total lies in 0..100 and is 100 for the whole total |
| CartridgeSummary.TableRows | scripts/car/generateIQMTable-aggregated-by-cartridge-with-total-and-percent.js:80-94 | every row's count is between 1 and the footer total and its percent is at most 100; a single row shows 100% |
| CartridgeSummary.RenderCartridge | scripts/car/generateIQMTable-aggregated-by-cartridge-with-total-and-percent.js:67-96 | a cartridge table has one row per key with its count, `-` for missing parts and its percent, and the cartridge's record count as its total |
| CartridgeSummary.RenderAsset | scripts/car/generateIQMTable-aggregated-by-cartridge-with-total-and-percent.js:64-97 | an asset section prints its location and holds one table per cartridge |
| CartridgeSummary.RenderAll | scripts/car/generateIQMTable-aggregated-by-cartridge-with-total-and-percent.js:63-97 | there is one section per asset |
| CartridgeSummary.Report | scripts/car/generateIQMTable-aggregated-by-cartridge-with-total-and-percent.js:8-97 | the report fails exactly when a line is not JSON; otherwise it holds one section per asset of the summary |
| CorrectiveTable.GroupByAsset | scripts/car/generateIQMTable-corrective-incluido.js:10-41 | the grouping loop builds the fold of its steps |
| CorrectiveTable.GroupEntries | scripts/car/generateIQMTable-corrective-incluido.js:33-40 | an asset is grouped exactly when it has kept records, and its entries are exactly those records, in file order |
| CorrectiveTable.GroupLocation | scripts/car/generateIQMTable-corrective-incluido.js:26-31 | an asset's location is that of its first record |
| CorrectiveTable.NotInGroup | scripts/car/generateIQMTable-corrective-incluido.js:24 | an asset with no record that has an `assetName` gets no group |
| CorrectiveTable.NotInGroupConverse | scripts/car/generateIQMTable-corrective-incluido.js:24-31 | the asset of every record with an `assetName` gets a group, whatever its CARTRIDGE |
| CorrectiveTable.GroupsPartition | scripts/car/generateIQMTable-corrective-incluido.js:24-40 | summed over the assets in any order, the entry counts equal the number of records with an `assetName` |
| CorrectiveTable.Dash | scripts/car/generateIQMTable-corrective-incluido.js:70-74 | a `null` or missing field renders as `-`, any string as itself |
| CorrectiveTable.Cells | scripts/car/generateIQMTable-corrective-incluido.js:68-76 | a row has five cells |
| CorrectiveTable.RenderAsset | scripts/car/generateIQMTable-corrective-incluido.js:65-77 | an asset table prints its location and has one row of cells per entry, in order |
| CorrectiveTable.Render | scripts/car/generateIQMTable-corrective-incluido.js:63-78 | there is one table per asset |
| CorrectiveTable.Report | scripts/car/generateIQMTable-corrective-incluido.js:8-78 | the report fails exactly when a line is not JSON; otherwise it holds one table per asset |
| DashboardTable.NonEmpty | scripts/dashboard/generateTable-fechas-corregidas.js:21 | `filter(Boolean)` leaves no empty line |
| DashboardTable.NonEmptyAppend | scripts/dashboard/generateTable-fechas-corregidas.js:21 | filtering a concatenation filters each part, so the result is built line by line |
| DashboardTable.NonEmptyLine | scripts/dashboard/generateTable-fechas-corregidas.js:21 | a single line is dropped exactly when it is empty; with the previous row, every other line stays, in order |
| DashboardTable.NonEmptyKeeps | scripts/dashboard/generateTable-fechas-corregidas.js:21 | lines none of which is empty all stay, in order |
| DashboardTable.ReadLog | scripts/dashboard/generateTable-fechas-corregidas.js:18-22 | a history the scraper wrote reads back as its records, and an empty history as no records |
| DashboardTable.Cell | scripts/dashboard/generateTable-fechas-corregidas.js:41 | a `null` or missing field renders as the empty string, any string (the empty one included) as itself |
| DashboardTable.RowCells | scripts/dashboard/generateTable-fechas-corregidas.js:40-42 | a row has one cell per column, in `headerCols` order |
| DashboardTable.Rows | scripts/dashboard/generateTable-fechas-corregidas.js:40-42 | there is one row per record, in file order |
| DashboardTable.TableShape | scripts/dashboard/generateTable-fechas-corregidas.js:30-57 | every row has eight cells, under the same eight header names in the same order, and a scraped history yields one row per record |
| Records.LogLines | scripts/dashboard/index.js:180-182 | a log written line by line has one JSON line per record, then the empty text after the final newline |
| Records.ParseAll | scripts/car/generateIQMTable-aggregated-by-cartridge-with-total-and-percent.js:11-12 | parsing succeeds exactly when every line is JSON, giving one record per line; otherwise it fails at the first line that is not |
| Records.TrimSplitLog | scripts/car/generateIQMTable-aggregated-by-cartridge-with-total-and-percent.js:8 | `trim().split('\n')` of a scraper log drops only its final empty line; an empty log becomes `['']` |
| Records.ReadStrictLog | scripts/car/generateIQMTable-corrective-incluido.js:8-12 | a log the scrapers wrote reads back as its records; an empty log aborts at its single empty line |
| Records.Enumerate | scripts/car/generateIQMTable-corrective-incluido.js:63 | object enumeration lists every key exactly once |
| Records.Log.Truncate | scripts/car/index-iqm-overwrite.js:131 | `writeFileSync(file, '')` empties the log |
| Records.Log.Append | scripts/dashboard/index.js:181 | `appendFileSync` adds one record at the end and keeps the rest |
| Records.Log.AppendEach | scripts/dashboard/index.js:180-182 | the append loop adds the records at the end, in order |

## Left out

- `server.js`: it is HTTP routing, child-process execution and file copying. Its only logic is a key check.
- Browser automation: login, navigation, waits, clicking and scrolling. The pages are inputs holding the strings their selectors find.
- DOM querying: `querySelector` and `innerText` become sequences of strings and `Option`s.
- `new Date(value)` date parsing: it is a `parse` parameter, and only the formatting of `LAST INSERTION` from day, month and year is modelled.
- Clock reads: both clock reads are parameters.
- Locale formatting: the chart's `formattedLabels` and the table's `reportDate` are left out. The chart's axis is the sorted raw timestamps.
- JSON encoding: `JSON.parse` and `JSON.stringify` are not modelled themselves. A line either holds an object or is rejected. Numbers, arrays and non-object JSON values are outside the model. The scripts write only strings, so those values arise only in a hand-edited file.
- Floating-point arithmetic: `Math.round((count / total) * 100)` is integer rounding with halves up. Rounding error of the float division is left out.
- `parseInt` on very long digit runs: it loses precision beyond 2^53, while `Chart.EffectiveValue` is exact.
- Key enumeration order: JavaScript's key order, which puts integer-like keys first and then follows insertion order, is left out. Every enumeration is an arbitrary duplicate-free order, and no property depends on it.
- Inherited property names: keys named like `Object.prototype` members, such as `constructor` or `__proto__`, are left out wherever the scripts use a record value as an object key. This covers asset names, chart day keys and the summary report's `CARTRIDGE` values (scripts/car/generateIQMTable-aggregated-by-cartridge-with-total-and-percent.js:31-39). For such a cartridge the script finds the inherited property truthy, counts onto it and never lists the cartridge; with `__proto__` it writes onto `Object.prototype`. `CartridgeSummary.Aggregate` and `CartridgeSummary.AggregateRecords` count it like any other cartridge.
- `toUpperCase`: only ASCII letters are modelled.
- String order: it is modelled per character. JavaScript compares UTF-16 code units, which differs only for characters outside the Basic Multilingual Plane.
- File-system errors: `mkdirSync`, a missing input file (`process.exit(1)`) and a write that fails midway are left out. A CAR asset whose append throws part-way is skipped whole in the model.
- CarScraper.ScrapeAllAssets: the login at scripts/car/index-iqm-overwrite.js:126 comes before the truncation at line 131, inside the same `try`. A run whose login fails never empties the file, so the previous run's records stay. The model starts after a successful login.
- DashboardScraper.ScrapeAllAssets: a run whose login fails (scripts/dashboard/index.js:146) appends nothing. The model starts after a successful login.
- Records.TrimSplit: `trim` also strips whitespace such as a byte-order mark or a no-break space from the first and last lines, and `JSON.parse` rejects that whitespace. The model takes a JSON text with such whitespace around it, at either end of a hand-edited file, as a line that does not parse.
- Console output, the HTML and CSS template text, the Chart.js configuration and the `exec` of the chart generator.
