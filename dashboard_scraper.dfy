/** The dashboard scraper (`scripts/dashboard/index.js`): for every asset
    page it reads the metadata and the cartridge cards into one record,
    keeps the records that have `EFFECTIVE TESTS`, stamps them with the
    run's start time and appends them to `dashboard-history.ndjson`. */
module DashboardScraper {

  import opened Options
  import opened Text
  import opened Records
  import opened PageMeta

  const EffectiveTests: string := "EFFECTIVE TESTS"
  const OnboardDays: string := "ONBOARD DAYS"
  const OnboardStability: string := "ONBOARD STABILITY"
  const LastInsertion: string := "LAST INSERTION"

  /** The card titles whose value must be a string of decimal digits. */
  const DigitTitles: set<string> := {EffectiveTests, OnboardDays, OnboardStability}

  /** The fields the cards can set. */
  const CardKeys: set<string> := DigitTitles + {LastInsertion}

  /** A `.cartridge-card`: the `innerText` of its title and value elements,
      `None` for one that is missing. */
  datatype Card = Card(title: Option<string>, value: Option<string>)

  /** What `new Date(value)` reads from a valid date: `getDate()`,
      `getMonth()` (0-based) and `getFullYear()`. */
  datatype DateParts = DateParts(day: nat, month0: nat, year: int)

  /** The ranges the `Date` getters return. */
  predicate ValidDate(d: DateParts) {
    1 <= d.day <= 31 && d.month0 < 12
  }

  /** An asset page as the page script sees it. */
  datatype AssetPage = AssetPage(
    name: Option<string>, location: Option<string>, spans: seq<string>, cards: seq<Card>)

  /** `${dd}-${mm}-${yyyy}` with day and 1-based month padded to two digits. */
  function FormatDate(d: DateParts): string {
    Pad2(NatToString(d.day)) + "-" + Pad2(NatToString(d.month0 + 1)) + "-" + IntToString(d.year)
  }

  /** A number below 100, padded to two digits, reads back as itself. */
  lemma Pad2Number(n: nat)
    requires n < 100
    ensures var s := Pad2(NatToString(n));
      |s| == 2 && IsDigits(s) && DecValue(s) == n
  {
    var t := NatToString(n);
    NatToStringRoundTrip(n);
    var s := Pad2(t);
    if n < 10 {
      assert s == ['0', t[0]];
      assert s[..1] == ['0'];
      assert DecValue(t) == DecValue(t[..0]) * 10 + DigitValue(t[0]);
    } else {
      assert s == t;
    }
  }

  /** The pieces of `a-b-c` with `a` and `b` two characters long. */
  lemma DashedParts(a: string, b: string, c: string)
    requires |a| == 2 && |b| == 2
    ensures var s := a + "-" + b + "-" + c;
      |s| == 6 + |c| && s[2] == '-' && s[5] == '-' && s[0..2] == a && s[3..5] == b && s[6..] == c
  {
  }

  /** A four-digit year prints as four digits that read back as the year. */
  lemma YearText(y: int)
    requires 1000 <= y <= 9999
    ensures var t := IntToString(y); |t| == 4 && IsDigits(t) && DecValue(t) == y
  {
    NatToStringRoundTrip(y);
  }

  /** The pieces of a date text read back as the numbers they print. */
  lemma DatePieces(dd: string, mm: string, yyyy: string, day: int, month: int, year: int)
    requires |dd| == 2 && IsDigits(dd) && DecValue(dd) == day
    requires |mm| == 2 && IsDigits(mm) && DecValue(mm) == month
    requires |yyyy| == 4 && IsDigits(yyyy) && DecValue(yyyy) == year
    ensures var s := dd + "-" + mm + "-" + yyyy;
      && |s| == 10 && s[2] == '-' && s[5] == '-'
      && IsDigits(s[0..2]) && DecValue(s[0..2]) == day
      && IsDigits(s[3..5]) && DecValue(s[3..5]) == month
      && IsDigits(s[6..]) && DecValue(s[6..]) == year
  {
    DashedParts(dd, mm, yyyy);
  }

  /** `LAST INSERTION` has the shape `dd-mm-yyyy` and reads back as the
      date's day, 1-based month and year (for a four-digit year). */
  lemma FormatDateShape(d: DateParts)
    requires ValidDate(d) && 1000 <= d.year <= 9999
    ensures var s := FormatDate(d);
      && |s| == 10 && s[2] == '-' && s[5] == '-'
      && IsDigits(s[0..2]) && DecValue(s[0..2]) == d.day
      && IsDigits(s[3..5]) && DecValue(s[3..5]) == d.month0 + 1
      && IsDigits(s[6..]) && DecValue(s[6..]) == d.year
  {
    var dd := Pad2(NatToString(d.day));
    var mm := Pad2(NatToString(d.month0 + 1));
    var yyyy := IntToString(d.year);
    assert FormatDate(d) == dd + "-" + mm + "-" + yyyy;
    Pad2Number(d.day);
    Pad2Number(d.month0 + 1);
    YearText(d.year);
    DatePieces(dd, mm, yyyy, d.day, d.month0 + 1, d.year);
  }

  /** The field and value a card with trimmed title `t` and trimmed value
      `v` sets, if any (`parse` stands for `new Date`). */
  function CardField(t: string, v: string, parse: string -> Option<DateParts>): (r: Option<(string, string)>)
    ensures r.Some? ==> r.value.0 == t && t in CardKeys
  {
    if t == "" || v == "" then None
    else if t in DigitTitles && IsDigits(v) then Some((t, v))
    else if t == LastInsertion && parse(v).Some? then Some((t, FormatDate(parse(v).value)))
    else None
  }

  /** A card sets a field exactly when its value is non-empty and, for a
      counter, all digits or, for `LAST INSERTION`, a date that parses; a
      counter stores the value itself, `LAST INSERTION` the formatted date. */
  lemma CardFieldRule(t: string, v: string, parse: string -> Option<DateParts>)
    ensures var r := CardField(t, v, parse);
      && (r.Some? <==> v != "" && ((t in DigitTitles && IsDigits(v)) || (t == LastInsertion && parse(v).Some?)))
      && (r.Some? && t in DigitTitles ==> r.value.1 == v)
      && (r.Some? && t == LastInsertion ==> r.value.1 == FormatDate(parse(v).value))
  {
    assert LastInsertion !in DigitTitles;
  }

  /** A counter is only ever set to digits. */
  lemma CounterField(t: string, v: string, parse: string -> Option<DateParts>)
    ensures var r := CardField(t, v, parse); r.Some? && r.value.0 in DigitTitles ==> IsDigits(r.value.1)
  {
    assert LastInsertion !in DigitTitles;
  }

  /** The card rule of the page script: `title` and `value` are the trimmed
      `innerText`s; a card with either missing sets nothing. */
  function Accepted(c: Card, parse: string -> Option<DateParts>): (r: Option<(string, string)>)
    ensures r.Some? ==> r.value.0 in CardKeys
    ensures r.Some? ==> c.title.Some? && c.value.Some?
  {
    if c.title.Some? && c.value.Some? then CardField(Trim(c.title.value), Trim(c.value.value), parse)
    else None
  }

  /** A card rule: the field and value a card sets, if any. */
  type Rule = Card -> Option<(string, string)>

  function CardRule(parse: string -> Option<DateParts>): Rule {
    c => Accepted(c, parse)
  }

  /** The body of `cards.forEach(card => { ... })`. */
  function ApplyCard(r: Record, c: Card, rule: Rule): Record {
    match rule(c)
    case Some((k, v)) => r[k := Str(v)]
    case None => r
  }

  /** The record after the cards have been applied in order. */
  function ApplyCards(r: Record, cards: seq<Card>, rule: Rule): Record {
    if cards == [] then r
    else ApplyCard(ApplyCards(r, cards[..|cards| - 1], rule), cards[|cards| - 1], rule)
  }

  /** The card loop of the page script, which updates `record` field by field. */
  method ReadCards(meta: Record, cards: seq<Card>, parse: string -> Option<DateParts>)
    returns (record: Record)
    ensures record == ApplyCards(meta, cards, CardRule(parse))
  {
    record := meta;
    for i := 0 to |cards|
      invariant record == ApplyCards(meta, cards[..i], CardRule(parse))
    {
      assert cards[..i + 1][..i] == cards[..i];
      record := ApplyCard(record, cards[i], CardRule(parse));
    }
    assert cards[..|cards|] == cards;
  }

  /** Does card `c` set field `k`? */
  predicate Sets(rule: Rule, c: Card, k: string) {
    rule(c).Some? && rule(c).value.0 == k
  }

  /** Of the cards that set a field, the last one in card order wins. */
  lemma {:induction false} LastCardWins(r: Record, cards: seq<Card>, rule: Rule, i: nat, k: string)
    requires i < |cards| && Sets(rule, cards[i], k)
    requires forall j :: i < j < |cards| ==> !Sets(rule, cards[j], k)
    ensures var m := ApplyCards(r, cards, rule); k in m && m[k] == Str(rule(cards[i]).value.1)
  {
    var n := |cards| - 1;
    if i < n {
      LastCardWins(r, cards[..n], rule, i, k);
    }
  }

  /** A field no card sets keeps the value it had before the cards. */
  lemma {:induction false} NoCardSets(r: Record, cards: seq<Card>, rule: Rule, k: string)
    requires forall j :: 0 <= j < |cards| ==> !Sets(rule, cards[j], k)
    ensures Get(ApplyCards(r, cards, rule), k) == Get(r, k)
  {
    if cards != [] {
      NoCardSets(r, cards[..|cards| - 1], rule, k);
    }
  }

  /** The cards only add the fields the rule can set, and any value they
      store is one the rule produces. */
  lemma {:induction false} CardsOnlySet(r: Record, cards: seq<Card>, rule: Rule, k: string)
    requires k in ApplyCards(r, cards, rule) && ApplyCards(r, cards, rule)[k] != Get(r, k)
    ensures exists j :: (0 <= j < |cards| && Sets(rule, cards[j], k) &&
      ApplyCards(r, cards, rule)[k] == Str(rule(cards[j]).value.1))
  {
    var n := |cards| - 1;
    if Sets(rule, cards[n], k) {
      assert Sets(rule, cards[n], k);
    } else {
      CardsOnlySet(r, cards[..n], rule, k);
      var j :| 0 <= j < n && Sets(rule, cards[..n][j], k) &&
        ApplyCards(r, cards[..n], rule)[k] == Str(rule(cards[..n][j]).value.1);
      assert cards[..n][j] == cards[j];
    }
  }

  /** Through the page's rule, a card sets a counter only to a non-empty
      string of digits. */
  lemma CounterRule(c: Card, parse: string -> Option<DateParts>)
    ensures var r := CardRule(parse)(c); r.Some? && r.value.0 in DigitTitles ==> IsDigits(r.value.1)
  {
    assert CardRule(parse)(c) == Accepted(c, parse);
    if c.title.Some? && c.value.Some? {
      CounterField(Trim(c.title.value), Trim(c.value.value), parse);
    }
  }

  /** The record `page.evaluate` returns for one asset page. */
  function ScrapeAsset(page: AssetPage, parse: string -> Option<DateParts>): Record {
    ApplyCards(Meta(page.name, page.location, page.spans), page.cards, CardRule(parse))
  }

  /** The fields of a record after the cards: its own and card fields only. */
  lemma {:induction false} CardKeysOnly(r: Record, cards: seq<Card>, rule: Rule)
    requires forall c :: rule(c).Some? ==> rule(c).value.0 in CardKeys
    ensures ApplyCards(r, cards, rule).Keys <= r.Keys + CardKeys
  {
    if cards != [] {
      CardKeysOnly(r, cards[..|cards| - 1], rule);
    }
  }

  /** A scraped record holds only metadata and card fields, and its
      `EFFECTIVE TESTS`, when present, is a non-empty string of digits. */
  lemma ScrapedRecord(page: AssetPage, parse: string -> Option<DateParts>)
    ensures var r := ScrapeAsset(page, parse);
      && r.Keys <= MetaKeys + CardKeys
      && (EffectiveTests in r ==> r[EffectiveTests].Str? && IsDigits(r[EffectiveTests].s))
  {
    var meta := Meta(page.name, page.location, page.spans);
    var rule := CardRule(parse);
    CardKeysOnly(meta, page.cards, rule);
    var r := ScrapeAsset(page, parse);
    if EffectiveTests in r {
      assert EffectiveTests !in meta;
      CardsOnlySet(meta, page.cards, rule, EffectiveTests);
      var j :| 0 <= j < |page.cards| && Sets(rule, page.cards[j], EffectiveTests) &&
        r[EffectiveTests] == Str(rule(page.cards[j]).value.1);
      CounterRule(page.cards[j], parse);
    }
  }

  /** `{ loopId, timestamp: loopId, ...record }`: the record's own fields
      come after, so they would win; the stamp survives because a scraped
      record has neither field. */
  function Stamp(loopId: string, record: Record): (r: Record)
    ensures r.Keys == record.Keys + {"loopId", "timestamp"}
    ensures forall k :: k in record ==> r[k] == record[k]
    ensures "loopId" !in record ==> r["loopId"] == Str(loopId)
    ensures "timestamp" !in record ==> r["timestamp"] == Str(loopId)
  {
    map["loopId" := Str(loopId), "timestamp" := Str(loopId)] + record
  }

  /** Whether a scraped record is kept: `if (record['EFFECTIVE TESTS'])`. */
  predicate Kept(record: Record) {
    Truthy(Get(record, EffectiveTests))
  }

  /** What one asset contributes to the run: nothing when its scrape threw
      (`None`) or found no `EFFECTIVE TESTS`, else its stamped record. */
  function PageRecord(loopId: string, page: Option<AssetPage>, parse: string -> Option<DateParts>)
    : Option<Record>
  {
    if page.Some? && Kept(ScrapeAsset(page.value, parse))
    then Some(Stamp(loopId, ScrapeAsset(page.value, parse)))
    else None
  }

  /** A kept record carries the run's start time as both `loopId` and
      `timestamp`, and a non-empty `EFFECTIVE TESTS` of digits. */
  lemma PageRecordStamped(loopId: string, page: Option<AssetPage>, parse: string -> Option<DateParts>)
    ensures var r := PageRecord(loopId, page, parse);
      r.Some? ==>
        && "loopId" in r.value && r.value["loopId"] == Str(loopId)
        && "timestamp" in r.value && r.value["timestamp"] == Str(loopId)
        && EffectiveTests in r.value && r.value[EffectiveTests].Str? && IsDigits(r.value[EffectiveTests].s)
  {
    if page.Some? {
      var rec := ScrapeAsset(page.value, parse);
      if Kept(rec) {
        ScrapedRecord(page.value, parse);
        StampKeysFree();
        assert PageRecord(loopId, page, parse) == Some(Stamp(loopId, rec));
      }
    }
  }

  /** The stamp's field names are neither metadata nor card fields. */
  lemma StampKeysFree()
    ensures "loopId" !in MetaKeys + CardKeys && "timestamp" !in MetaKeys + CardKeys
  {
  }

  /** The records of one run, in asset order. */
  function RunRecords(loopId: string, pages: seq<Option<AssetPage>>, parse: string -> Option<DateParts>)
    : (rs: seq<Record>)
    ensures |rs| <= |pages|
  {
    if pages == [] then []
    else
      var front := RunRecords(loopId, pages[..|pages| - 1], parse);
      match PageRecord(loopId, pages[|pages| - 1], parse)
      case Some(r) => front + [r]
      case None => front
  }

  lemma RunRecordsLast(loopId: string, pages: seq<Option<AssetPage>>, parse: string -> Option<DateParts>)
    requires pages != []
    ensures var last := PageRecord(loopId, pages[|pages| - 1], parse);
      RunRecords(loopId, pages, parse) ==
        RunRecords(loopId, pages[..|pages| - 1], parse) + (if last.Some? then [last.value] else [])
  {
  }

  /** Every record of the run comes from one page, in page order. */
  lemma {:induction false} RunRecordsFromPages(
    loopId: string, pages: seq<Option<AssetPage>>, parse: string -> Option<DateParts>, i: nat)
    requires i < |RunRecords(loopId, pages, parse)|
    ensures exists p :: 0 <= p < |pages| && PageRecord(loopId, pages[p], parse) == Some(RunRecords(loopId, pages, parse)[i])
  {
    var n := |pages| - 1;
    var front := RunRecords(loopId, pages[..n], parse);
    RunRecordsLast(loopId, pages, parse);
    if i < |front| {
      RunRecordsFromPages(loopId, pages[..n], parse, i);
      var p :| 0 <= p < n && PageRecord(loopId, pages[..n][p], parse) == Some(front[i]);
      assert pages[..n][p] == pages[p];
    } else {
      assert PageRecord(loopId, pages[n], parse) == Some(RunRecords(loopId, pages, parse)[i]);
    }
  }

  /** Every record of the run carries the run's start time as `loopId`
      and `timestamp` and has `EFFECTIVE TESTS`. */
  lemma RunRecordsStamped(
    loopId: string, pages: seq<Option<AssetPage>>, parse: string -> Option<DateParts>, i: nat)
    requires i < |RunRecords(loopId, pages, parse)|
    ensures var r := RunRecords(loopId, pages, parse)[i];
      && "loopId" in r && r["loopId"] == Str(loopId)
      && "timestamp" in r && r["timestamp"] == Str(loopId)
      && EffectiveTests in r && Truthy(r[EffectiveTests])
  {
    RunRecordsFromPages(loopId, pages, parse, i);
    var p :| 0 <= p < |pages| && PageRecord(loopId, pages[p], parse) == Some(RunRecords(loopId, pages, parse)[i]);
    PageRecordStamped(loopId, pages[p], parse);
  }

  /** The records of two batches of assets are those of each batch in turn. */
  lemma {:induction false} RunRecordsAppend(
    loopId: string, a: seq<Option<AssetPage>>, b: seq<Option<AssetPage>>,
    parse: string -> Option<DateParts>)
    ensures RunRecords(loopId, a + b, parse) == RunRecords(loopId, a, parse) + RunRecords(loopId, b, parse)
    decreases |b|
  {
    if b == [] {
      assert a + b == a;
    } else {
      var n := |b| - 1;
      assert (a + b)[..|a + b| - 1] == a + b[..n];
      assert (a + b)[|a + b| - 1] == b[n];
      RunRecordsLast(loopId, a + b, parse);
      RunRecordsLast(loopId, b, parse);
      RunRecordsAppend(loopId, a, b[..n], parse);
      var last := PageRecord(loopId, b[n], parse);
      AppendAssoc(RunRecords(loopId, a, parse), RunRecords(loopId, b[..n], parse),
                  if last.Some? then [last.value] else []);
    }
  }

  /** A page that throws or yields no `EFFECTIVE TESTS` contributes nothing. */
  lemma DroppedPage(loopId: string, page: Option<AssetPage>, parse: string -> Option<DateParts>)
    requires page.None? || !Kept(ScrapeAsset(page.value, parse))
    ensures RunRecords(loopId, [page], parse) == []
  {
    assert [page][..0] == [];
  }

  /** The scraping loop of `scrapeAllAssets`, which pushes onto `records`. */
  method CollectRecords(loopId: string, pages: seq<Option<AssetPage>>, parse: string -> Option<DateParts>)
    returns (records: seq<Record>)
    ensures records == RunRecords(loopId, pages, parse)
  {
    records := [];
    for i := 0 to |pages|
      invariant records == RunRecords(loopId, pages[..i], parse)
    {
      assert pages[..i + 1][..i] == pages[..i];
      var page := pages[i];
      if page.Some? {
        var record := ScrapeAsset(page.value, parse);
        if Kept(record) {
          records := records + [Stamp(loopId, record)];
        }
      }
      assert records == RunRecords(loopId, pages[..i + 1], parse);
    }
    assert pages[..|pages|] == pages;
  }

  /** One run: collect the records, then append each one to the history
      file. What the file held before is left as it was. */
  method ScrapeAllAssets(log: Log, loopId: string, pages: seq<Option<AssetPage>>,
                         parse: string -> Option<DateParts>)
    modifies log
    ensures log.records == old(log.records) + RunRecords(loopId, pages, parse)
  {
    var records := CollectRecords(loopId, pages, parse);
    log.AppendEach(records);
  }
}
