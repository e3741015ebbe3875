/** The CAR summary report: the corrective-action records are counted per
    asset, cartridge and (EVENT, CORRECTIVE_ACTION, RESULT) combination,
    and each cartridge gets a table with one row per combination, its
    count, its share of the cartridge's records and the cartridge total. */
module CartridgeSummary {

  import opened Options
  import opened Text
  import opened Records

  /** `JSON.stringify([EVENT, ACTION, RESULT])`: a missing field and a
      `null` field both become `null`. */
  datatype Key = Key(event: Option<string>, action: Option<string>, result: Option<string>)

  function AsJson(v: Val): (r: Option<string>)
    ensures r.Some? <==> v.Str?
    ensures r.Some? ==> r.value == v.s
  {
    if v.Str? then Some(v.s) else None
  }

  function KeyOf(r: Record): Key {
    Key(AsJson(Get(r, "EVENT")), AsJson(Get(r, "CORRECTIVE_ACTION")), AsJson(Get(r, "RESULT")))
  }

  function AssetOf(r: Record): string {
    ToText(Get(r, "assetName"))
  }

  function CartridgeOf(r: Record): string {
    ToText(Get(r, "CARTRIDGE"))
  }

  /** `if (!assetName || !CARTRIDGE) continue;` skips the others. */
  predicate Retained(r: Record) {
    Truthy(Get(r, "assetName")) && Truthy(Get(r, "CARTRIDGE"))
  }

  /** A retained record of asset `a` and cartridge `c`. */
  predicate Matches(r: Record, a: string, c: string) {
    Retained(r) && AssetOf(r) == a && CartridgeOf(r) == c
  }

  /** `{ location, cartridges }`: per cartridge, the count of each key. */
  datatype AssetSummary = AssetSummary(location: Val, cartridges: map<string, map<Key, nat>>)

  type Summary = map<string, AssetSummary>

  /** One iteration of the aggregation loop. */
  function Tally(s: Summary, r: Record): Summary {
    if !Retained(r) then s
    else
      var a := AssetOf(r);
      var c := CartridgeOf(r);
      var k := KeyOf(r);
      var asset := if a in s then s[a] else AssetSummary(Get(r, "cartridgeLocation"), map[]);
      var counts := if c in asset.cartridges then asset.cartridges[c] else map[];
      var n := if k in counts then counts[k] else 0;
      s[a := asset.(cartridges := asset.cartridges[c := counts[k := n + 1]])]
  }

  /** The summary of the records, processed in file order. */
  function Aggregate(rs: seq<Record>): Summary {
    if rs == [] then map[] else Tally(Aggregate(rs[..|rs| - 1]), rs[|rs| - 1])
  }

  /** The aggregation loop, creating the nested counters on first use. */
  method AggregateRecords(rs: seq<Record>) returns (s: Summary)
    ensures s == Aggregate(rs)
  {
    s := map[];
    for i := 0 to |rs|
      invariant s == Aggregate(rs[..i])
    {
      assert rs[..i + 1][..i] == rs[..i];
      var r := rs[i];
      assert Aggregate(rs[..i + 1]) == Tally(s, r);
      if Retained(r) {
        var a := AssetOf(r);
        var c := CartridgeOf(r);
        var k := KeyOf(r);
        // `assets[assetName] ??= { location, cartridges: {} }`, then the
        // same for the cartridge and the key's counter.
        var asset := if a in s then s[a] else AssetSummary(Get(r, "cartridgeLocation"), map[]);
        var counts := if c in asset.cartridges then asset.cartridges[c] else map[];
        var n := if k in counts then counts[k] else 0;
        s := s[a := asset.(cartridges := asset.cartridges[c := counts[k := n + 1]])];
      }
    }
    assert rs[..|rs|] == rs;
  }

  /** The number of retained records of asset `a`, cartridge `c` and key `k`. */
  function Count(rs: seq<Record>, a: string, c: string, k: Key): nat {
    if rs == [] then 0
    else Count(rs[..|rs| - 1], a, c, k) + (if Matches(rs[|rs| - 1], a, c) && KeyOf(rs[|rs| - 1]) == k then 1 else 0)
  }

  /** The number of retained records of asset `a` and cartridge `c`. */
  function CountAC(rs: seq<Record>, a: string, c: string): nat {
    if rs == [] then 0
    else CountAC(rs[..|rs| - 1], a, c) + (if Matches(rs[|rs| - 1], a, c) then 1 else 0)
  }

  /** The count the summary holds, zero where it has none. */
  function Stored(s: Summary, a: string, c: string, k: Key): nat {
    if a in s && c in s[a].cartridges && k in s[a].cartridges[c] then s[a].cartridges[c][k] else 0
  }

  /** A tally adds one to its record's own counter and to no other. */
  lemma TallyStored(s: Summary, r: Record, a: string, c: string, k: Key)
    ensures Stored(Tally(s, r), a, c, k) ==
      Stored(s, a, c, k) + (if Matches(r, a, c) && KeyOf(r) == k then 1 else 0)
    ensures (a in Tally(s, r) && c in Tally(s, r)[a].cartridges) <==>
      (a in s && c in s[a].cartridges) || Matches(r, a, c)
    ensures a in Tally(s, r) <==> a in s || (Retained(r) && AssetOf(r) == a)
  {
  }

  /** Every stored count is the number of retained records with that
      asset, cartridge and key, and is at least 1. */
  lemma {:induction false} AggregateCounts(rs: seq<Record>, a: string, c: string, k: Key)
    ensures Stored(Aggregate(rs), a, c, k) == Count(rs, a, c, k)
    ensures var s := Aggregate(rs);
      a in s && c in s[a].cartridges && k in s[a].cartridges[c] ==> s[a].cartridges[c][k] >= 1
  {
    if rs != [] {
      var n := |rs| - 1;
      AggregateCounts(rs[..n], a, c, k);
      TallyStored(Aggregate(rs[..n]), rs[n], a, c, k);
    }
  }

  /** The assets of the summary are those of the retained records, and an
      asset has a cartridge exactly when one of its retained records has it. */
  lemma {:induction false} AggregateKeys(rs: seq<Record>, a: string, c: string)
    ensures a in Aggregate(rs) <==> exists i :: 0 <= i < |rs| && Retained(rs[i]) && AssetOf(rs[i]) == a
    ensures (a in Aggregate(rs) && c in Aggregate(rs)[a].cartridges) <==> CountAC(rs, a, c) >= 1
  {
    if rs != [] {
      var n := |rs| - 1;
      AggregateKeys(rs[..n], a, c);
      TallyStored(Aggregate(rs[..n]), rs[n], a, c, KeyOf(rs[n]));
      assert forall i :: 0 <= i < n ==> rs[..n][i] == rs[i];
    }
  }

  /** An asset's location is that of its first retained record. */
  lemma {:induction false} AggregateLocation(rs: seq<Record>, i: nat)
    requires i < |rs| && Retained(rs[i])
    requires forall j :: 0 <= j < i ==> !(Retained(rs[j]) && AssetOf(rs[j]) == AssetOf(rs[i]))
    ensures AssetOf(rs[i]) in Aggregate(rs)
    ensures Aggregate(rs)[AssetOf(rs[i])].location == Get(rs[i], "cartridgeLocation")
  {
    var n := |rs| - 1;
    var a := AssetOf(rs[i]);
    if i == n {
      AggregateKeys(rs[..n], a, "");
    } else {
      assert rs[..n][i] == rs[i];
      AggregateLocation(rs[..n], i);
    }
  }

  /** `Object.values(summaries).reduce((acc, val) => acc + val, 0)` over
      the keys in the order listed. */
  function SumSeq(counts: map<Key, nat>, ks: seq<Key>): nat {
    if ks == [] then 0 else (if ks[0] in counts then counts[ks[0]] else 0) + SumSeq(counts, ks[1..])
  }

  /** The sum of the counts of the listed keys. */
  function SumCounts(rs: seq<Record>, a: string, c: string, ks: seq<Key>): nat {
    if ks == [] then 0 else Count(rs, a, c, ks[0]) + SumCounts(rs, a, c, ks[1..])
  }

  /** Adding a record adds one to the sum exactly when its key is listed. */
  lemma {:induction false} SumCountsStep(rs: seq<Record>, r: Record, a: string, c: string, ks: seq<Key>)
    requires Distinct(ks)
    ensures SumCounts(rs + [r], a, c, ks) ==
      SumCounts(rs, a, c, ks) + (if Matches(r, a, c) && KeyOf(r) in ks then 1 else 0)
  {
    if ks != [] {
      assert (rs + [r])[..|rs|] == rs;
      SumCountsStep(rs, r, a, c, ks[1..]);
      assert KeyOf(r) in ks <==> KeyOf(r) == ks[0] || KeyOf(r) in ks[1..];
    }
  }

  /** Over keys that cover every retained record of the cartridge, the
      counts add up to the cartridge's number of records. */
  lemma {:induction false} SumCountsTotal(rs: seq<Record>, a: string, c: string, ks: seq<Key>)
    requires Distinct(ks)
    requires forall i :: 0 <= i < |rs| && Matches(rs[i], a, c) ==> KeyOf(rs[i]) in ks
    ensures SumCounts(rs, a, c, ks) == CountAC(rs, a, c)
  {
    if rs == [] {
      SumCountsEmpty(ks, a, c);
    } else {
      var n := |rs| - 1;
      assert rs == rs[..n] + [rs[n]];
      assert forall i :: 0 <= i < n ==> rs[..n][i] == rs[i];
      SumCountsTotal(rs[..n], a, c, ks);
      SumCountsStep(rs[..n], rs[n], a, c, ks);
    }
  }

  lemma {:induction false} SumCountsEmpty(ks: seq<Key>, a: string, c: string)
    ensures SumCounts([], a, c, ks) == 0
  {
    if ks != [] {
      SumCountsEmpty(ks[1..], a, c);
    }
  }

  /** Summing the stored counts of listed keys sums their record counts. */
  lemma {:induction false} SumSeqStored(rs: seq<Record>, a: string, c: string, ks: seq<Key>)
    requires var s := Aggregate(rs); a in s && c in s[a].cartridges
    ensures SumSeq(Aggregate(rs)[a].cartridges[c], ks) == SumCounts(rs, a, c, ks)
  {
    if ks != [] {
      AggregateCounts(rs, a, c, ks[0]);
      SumSeqStored(rs, a, c, ks[1..]);
    }
  }

  /** A retained record counts towards its own key. */
  lemma {:induction false} CountPositive(rs: seq<Record>, i: nat)
    requires i < |rs| && Retained(rs[i])
    ensures Count(rs, AssetOf(rs[i]), CartridgeOf(rs[i]), KeyOf(rs[i])) >= 1
  {
    var n := |rs| - 1;
    if i < n {
      assert rs[..n][i] == rs[i];
      CountPositive(rs[..n], i);
    }
  }

  /** A cartridge's total, summed over its keys in any order, is the
      number of its retained records. */
  lemma CartridgeTotal(rs: seq<Record>, a: string, c: string, ks: seq<Key>)
    requires var s := Aggregate(rs); a in s && c in s[a].cartridges
    requires Enumerates(ks, Aggregate(rs)[a].cartridges[c].Keys)
    ensures SumSeq(Aggregate(rs)[a].cartridges[c], ks) == CountAC(rs, a, c)
  {
    forall i | 0 <= i < |rs| && Matches(rs[i], a, c)
      ensures KeyOf(rs[i]) in ks
    {
      CountPositive(rs, i);
      AggregateCounts(rs, a, c, KeyOf(rs[i]));
    }
    SumSeqStored(rs, a, c, ks);
    SumCountsTotal(rs, a, c, ks);
  }

  /** `Math.round((count / total) * 100)`, in integers: half rounds up. */
  function Percent(count: nat, total: nat): nat
    requires total > 0
  {
    (200 * count + total) / (2 * total)
  }

  /** The percent is the nearest integer to `100 * count / total`, with
      halves rounded up. */
  lemma PercentRounds(count: nat, total: nat)
    requires total > 0
    ensures 2 * total * Percent(count, total) <= 200 * count + total < 2 * total * (Percent(count, total) + 1)
  {
    var x := 200 * count + total;
    var y := 2 * total;
    assert x == (x / y) * y + x % y;
  }

  /** A share of the total lies in 0..100, and is 100 for the whole total. */
  lemma PercentBounds(count: nat, total: nat)
    requires 0 < total && count <= total
    ensures Percent(count, total) <= 100
    ensures count == total ==> Percent(count, total) == 100
  {
    var p := Percent(count, total);
    PercentRounds(count, total);
    MulLtCancel(2 * total, p, 101);
    if count == total {
      MulLtCancel(2 * total, 99, p);
    }
  }

  lemma MulLtCancel(x: nat, a: nat, b: nat)
    requires x > 0 && x * a < x * b
    ensures a < b
  {
  }

  /** A row of a cartridge table. */
  datatype Row = Row(event: string, action: string, result: string, count: nat, percent: nat)

  /** One cartridge table: its rows (row `i` for `keys[i]`) and its footer total. */
  datatype CartridgeTable = CartridgeTable(cartridge: string, keys: seq<Key>, rows: seq<Row>, total: nat)

  /** One asset: its heading, its location line and its cartridge tables. */
  datatype AssetSection = AssetSection(asset: string, location: string, tables: seq<CartridgeTable>)

  /** `${v ?? '-'}` after the key is parsed back. */
  function Dash(o: Option<string>): string {
    if o.Some? then o.value else "-"
  }

  function RowOf(k: Key, count: nat, total: nat): Row
    requires total > 0
  {
    Row(Dash(k.event), Dash(k.action), Dash(k.result), count, Percent(count, total))
  }

  /** Table `t` is the one of cartridge `c` of asset `a`. */
  ghost predicate TableFor(rs: seq<Record>, a: string, c: string, t: CartridgeTable)
  {
    var s := Aggregate(rs);
    && a in s && c in s[a].cartridges
    && t.cartridge == c && t.total == CountAC(rs, a, c) && t.total > 0
    && Enumerates(t.keys, s[a].cartridges[c].Keys) && |t.rows| == |t.keys|
    && (forall i :: 0 <= i < |t.rows| ==>
          t.rows[i] == RowOf(t.keys[i], Count(rs, a, c, t.keys[i]), t.total))
  }

  /** The rows of a table have counts of at least 1 adding up to the
      footer total and percents within 0..100; a table with a single row
      shows 100%. */
  lemma TableRows(rs: seq<Record>, a: string, c: string, t: CartridgeTable)
    requires TableFor(rs, a, c, t)
    ensures forall i :: 0 <= i < |t.rows| ==> 1 <= t.rows[i].count <= t.total && t.rows[i].percent <= 100
    ensures |t.rows| == 1 ==> t.rows[0].percent == 100
  {
    var s := Aggregate(rs);
    var counts := s[a].cartridges[c];
    CartridgeTotal(rs, a, c, t.keys);
    forall i | 0 <= i < |t.rows|
      ensures 1 <= t.rows[i].count <= t.total && t.rows[i].percent <= 100
    {
      AggregateCounts(rs, a, c, t.keys[i]);
      SumSeqAtLeast(counts, t.keys, i);
      PercentBounds(t.rows[i].count, t.total);
    }
    if |t.rows| == 1 {
      AggregateCounts(rs, a, c, t.keys[0]);
      assert SumSeq(counts, t.keys[1..]) == 0;
      PercentBounds(t.rows[0].count, t.total);
    }
  }

  lemma {:induction false} SumSeqAtLeast(counts: map<Key, nat>, ks: seq<Key>, i: nat)
    requires i < |ks| && ks[i] in counts
    ensures counts[ks[i]] <= SumSeq(counts, ks)
  {
    if i > 0 {
      SumSeqAtLeast(counts, ks[1..], i - 1);
    }
  }

  /** `Object.values(counts).reduce((a, b) => a + b, 0)` over the keys in
      enumeration order. */
  method Total(counts: map<Key, nat>, keys: seq<Key>) returns (total: nat)
    requires forall k :: k in keys ==> k in counts
    ensures total == SumSeq(counts, keys)
  {
    total := 0;
    for i := 0 to |keys|
      invariant total == SumSeq(counts, keys) - SumSeq(counts, keys[i..])
    {
      assert keys[i..][1..] == keys[i + 1..];
      total := total + counts[keys[i]];
    }
    assert keys[|keys|..] == [];
  }

  /** The rows of the first `n` keys of a table. */
  ghost predicate RowsFor(rs: seq<Record>, a: string, c: string, keys: seq<Key>, rows: seq<Row>, total: nat)
    requires total > 0
  {
    && |rows| <= |keys|
    && forall j :: 0 <= j < |rows| ==> rows[j] == RowOf(keys[j], Count(rs, a, c, keys[j]), total)
  }

  lemma RowsForStep(rs: seq<Record>, a: string, c: string, keys: seq<Key>, rows: seq<Row>, total: nat, row: Row)
    requires total > 0 && RowsFor(rs, a, c, keys, rows, total) && |rows| < |keys|
    requires row == RowOf(keys[|rows|], Count(rs, a, c, keys[|rows|]), total)
    ensures RowsFor(rs, a, c, keys, rows + [row], total)
  {
  }

  lemma TableForIntro(rs: seq<Record>, a: string, c: string, keys: seq<Key>, rows: seq<Row>, total: nat)
    requires var s := Aggregate(rs); a in s && c in s[a].cartridges
    requires Enumerates(keys, Aggregate(rs)[a].cartridges[c].Keys)
    requires total == CountAC(rs, a, c) && total > 0
    requires RowsFor(rs, a, c, keys, rows, total) && |rows| == |keys|
    ensures TableFor(rs, a, c, CartridgeTable(c, keys, rows, total))
  {
  }

  /** One cartridge: the total via `reduce`, then one row per key. */
  method RenderCartridge(ghost rs: seq<Record>, s: Summary, a: string, c: string) returns (t: CartridgeTable)
    requires s == Aggregate(rs) && a in s && c in s[a].cartridges
    ensures TableFor(rs, a, c, t)
  {
    var counts := s[a].cartridges[c];
    var keys := Enumerate(counts.Keys);
    var total := Total(counts, keys);
    CartridgeTotal(rs, a, c, keys);
    AggregateKeys(rs, a, c);
    var rows: seq<Row> := [];
    for i := 0 to |keys|
      invariant |rows| == i && RowsFor(rs, a, c, keys, rows, total)
    {
      AggregateCounts(rs, a, c, keys[i]);
      assert counts[keys[i]] == Stored(s, a, c, keys[i]);
      var row := RowOf(keys[i], counts[keys[i]], total);
      RowsForStep(rs, a, c, keys, rows, total, row);
      rows := rows + [row];
    }
    TableForIntro(rs, a, c, keys, rows, total);
    t := CartridgeTable(c, keys, rows, total);
  }

  /** Section `sec` is the one of asset `a`: its location as the template
      prints it, and one table per cartridge. */
  ghost predicate SectionFor(rs: seq<Record>, a: string, sec: AssetSection)
  {
    var s := Aggregate(rs);
    && a in s && sec.asset == a && sec.location == ToText(s[a].location)
    && |sec.tables| == |s[a].cartridges|
    && (forall i, j :: 0 <= i < j < |sec.tables| ==> sec.tables[i].cartridge != sec.tables[j].cartridge)
    && (forall i :: 0 <= i < |sec.tables| ==> TableFor(rs, a, sec.tables[i].cartridge, sec.tables[i]))
  }

  /** The tables of the first cartridges of an asset, in order. */
  ghost predicate TablesFor(rs: seq<Record>, a: string, cartridges: seq<string>, tables: seq<CartridgeTable>) {
    && |tables| <= |cartridges|
    && (forall j :: 0 <= j < |tables| ==> tables[j].cartridge == cartridges[j])
    && (forall j :: 0 <= j < |tables| ==> TableFor(rs, a, cartridges[j], tables[j]))
  }

  lemma TablesForStep(rs: seq<Record>, a: string, cartridges: seq<string>, tables: seq<CartridgeTable>,
                      t: CartridgeTable)
    requires TablesFor(rs, a, cartridges, tables) && |tables| < |cartridges|
    requires t.cartridge == cartridges[|tables|] && TableFor(rs, a, cartridges[|tables|], t)
    ensures TablesFor(rs, a, cartridges, tables + [t])
  {
  }

  lemma TablesForAll(rs: seq<Record>, a: string, cartridges: seq<string>, tables: seq<CartridgeTable>)
    requires a in Aggregate(rs) && Enumerates(cartridges, Aggregate(rs)[a].cartridges.Keys)
    requires |cartridges| == |Aggregate(rs)[a].cartridges|
    requires TablesFor(rs, a, cartridges, tables) && |tables| == |cartridges|
    ensures var s := Aggregate(rs);
      && |tables| == |s[a].cartridges|
      && (forall i, j :: 0 <= i < j < |tables| ==> tables[i].cartridge != tables[j].cartridge)
      && (forall i :: 0 <= i < |tables| ==> TableFor(rs, a, tables[i].cartridge, tables[i]))
  {
  }

  method RenderAsset(ghost rs: seq<Record>, s: Summary, a: string) returns (sec: AssetSection)
    requires s == Aggregate(rs) && a in s
    ensures SectionFor(rs, a, sec)
  {
    var cartridges := Enumerate(s[a].cartridges.Keys);
    var tables: seq<CartridgeTable> := [];
    for i := 0 to |cartridges|
      invariant |tables| == i && TablesFor(rs, a, cartridges, tables)
    {
      var t := RenderCartridge(rs, s, a, cartridges[i]);
      TablesForStep(rs, a, cartridges, tables, t);
      tables := tables + [t];
    }
    TablesForAll(rs, a, cartridges, tables);
    sec := AssetSection(a, ToText(s[a].location), tables);
  }

  /** The sections of the first assets, in order. */
  ghost predicate SectionsFor(rs: seq<Record>, assets: seq<string>, sections: seq<AssetSection>) {
    && |sections| <= |assets|
    && (forall j :: 0 <= j < |sections| ==> sections[j].asset == assets[j])
    && (forall j :: 0 <= j < |sections| ==> SectionFor(rs, assets[j], sections[j]))
  }

  lemma SectionsForStep(rs: seq<Record>, assets: seq<string>, sections: seq<AssetSection>, sec: AssetSection)
    requires SectionsFor(rs, assets, sections) && |sections| < |assets|
    requires sec.asset == assets[|sections|] && SectionFor(rs, assets[|sections|], sec)
    ensures SectionsFor(rs, assets, sections + [sec])
  {
  }

  lemma SectionsForAll(rs: seq<Record>, assets: seq<string>, sections: seq<AssetSection>)
    requires Distinct(assets) && SectionsFor(rs, assets, sections) && |sections| == |assets|
    ensures forall i, j :: 0 <= i < j < |sections| ==> sections[i].asset != sections[j].asset
    ensures forall i :: 0 <= i < |sections| ==> SectionFor(rs, sections[i].asset, sections[i])
  {
  }

  /** One section per asset, in `Object.entries` order. */
  method RenderAll(ghost rs: seq<Record>, s: Summary) returns (sections: seq<AssetSection>)
    requires s == Aggregate(rs)
    ensures |sections| == |s|
    ensures forall i, j :: 0 <= i < j < |sections| ==> sections[i].asset != sections[j].asset
    ensures forall i :: 0 <= i < |sections| ==> SectionFor(rs, sections[i].asset, sections[i])
  {
    var assets := Enumerate(s.Keys);
    sections := [];
    for i := 0 to |assets|
      invariant |sections| == i && SectionsFor(rs, assets, sections)
    {
      var sec := RenderAsset(rs, s, assets[i]);
      SectionsForStep(rs, assets, sections, sec);
      sections := sections + [sec];
    }
    SectionsForAll(rs, assets, sections);
  }

  /** The whole report: read the file (any line that is not JSON aborts
      the run, an empty file included), aggregate, and render one section
      per asset. */
  method Report(file: seq<Line>) returns (r: Result<seq<AssetSection>>)
    ensures r.Failure? <==> ReadStrict(file).Failure?
    ensures r.Ok? ==>
      var rs := ReadStrict(file).value;
      && |r.value| == |Aggregate(rs)|
      && (forall i, j :: 0 <= i < j < |r.value| ==> r.value[i].asset != r.value[j].asset)
      && (forall i :: 0 <= i < |r.value| ==> SectionFor(rs, r.value[i].asset, r.value[i]))
  {
    var read := ReadStrict(file);
    if read.Failure? {
      return Failure(read.at);
    }
    var rs := read.value;
    var s := AggregateRecords(rs);
    var sections := RenderAll(rs, s);
    return Ok(sections);
  }
}
