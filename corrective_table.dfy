/** The CAR corrective-action report: the records are grouped per asset,
    keeping each asset's records in file order, and each asset gets a
    table with one five-cell row per record. */
module CorrectiveTable {

  import opened Options
  import opened Text
  import opened Records

  /** The fields of a record the report keeps (`CORRECTIVE_ACTION` as `action`). */
  datatype Entry = Entry(timestamp: Val, date: Val, cartridge: Val, event: Val, action: Val, result: Val)

  /** `{ location, entries }` */
  datatype AssetEntries = AssetEntries(location: Val, entries: seq<Entry>)

  type Grouped = map<string, AssetEntries>

  /** `if (!assetName) continue;`: CARTRIDGE plays no part. */
  predicate Kept(r: Record) {
    Truthy(Get(r, "assetName"))
  }

  function AssetOf(r: Record): string {
    ToText(Get(r, "assetName"))
  }

  function EntryOf(r: Record): Entry {
    Entry(Get(r, "timestamp"), Get(r, "DATE"), Get(r, "CARTRIDGE"), Get(r, "EVENT"),
          Get(r, "CORRECTIVE_ACTION"), Get(r, "RESULT"))
  }

  /** One iteration of the grouping loop. */
  function Step(g: Grouped, r: Record): Grouped {
    if !Kept(r) then g
    else
      var a := AssetOf(r);
      var group := if a in g then g[a] else AssetEntries(Get(r, "cartridgeLocation"), []);
      g[a := group.(entries := group.entries + [EntryOf(r)])]
  }

  /** The grouping of the records, processed in file order. */
  function Group(rs: seq<Record>): Grouped {
    if rs == [] then map[] else Step(Group(rs[..|rs| - 1]), rs[|rs| - 1])
  }

  /** The grouping loop: creates an asset's group on its first record,
      then pushes the record's entry. */
  method GroupByAsset(rs: seq<Record>) returns (g: Grouped)
    ensures g == Group(rs)
  {
    g := map[];
    for i := 0 to |rs|
      invariant g == Group(rs[..i])
    {
      assert rs[..i + 1][..i] == rs[..i];
      var r := rs[i];
      assert Group(rs[..i + 1]) == Step(g, r);
      if Kept(r) {
        var a := AssetOf(r);
        if a !in g {
          g := g[a := AssetEntries(Get(r, "cartridgeLocation"), [])];
        }
        g := g[a := g[a].(entries := g[a].entries + [EntryOf(r)])];
      }
    }
    assert rs[..|rs|] == rs;
  }

  /** The entries of the kept records of asset `a`, in file order. */
  function EntriesOf(rs: seq<Record>, a: string): seq<Entry> {
    if rs == [] then []
    else
      EntriesOf(rs[..|rs| - 1], a) +
        (if Kept(rs[|rs| - 1]) && AssetOf(rs[|rs| - 1]) == a then [EntryOf(rs[|rs| - 1])] else [])
  }

  /** The assets of the grouping are those of the kept records, and each
      asset's entries are exactly its records, in file order. */
  lemma {:induction false} GroupEntries(rs: seq<Record>, a: string)
    ensures a in Group(rs) <==> EntriesOf(rs, a) != []
    ensures a in Group(rs) ==> Group(rs)[a].entries == EntriesOf(rs, a)
  {
    if rs != [] {
      GroupEntries(rs[..|rs| - 1], a);
    }
  }

  /** An asset's location is that of its first record. */
  lemma {:induction false} GroupLocation(rs: seq<Record>, i: nat)
    requires i < |rs| && Kept(rs[i])
    requires forall j :: 0 <= j < i ==> !(Kept(rs[j]) && AssetOf(rs[j]) == AssetOf(rs[i]))
    ensures AssetOf(rs[i]) in Group(rs)
    ensures Group(rs)[AssetOf(rs[i])].location == Get(rs[i], "cartridgeLocation")
  {
    var n := |rs| - 1;
    if i == n {
      NotInGroup(rs[..n], AssetOf(rs[i]));
    } else {
      assert rs[..n][i] == rs[i];
      GroupLocation(rs[..n], i);
    }
  }

  /** An asset none of whose records is kept has no group. */
  lemma {:induction false} NotInGroup(rs: seq<Record>, a: string)
    requires forall j :: 0 <= j < |rs| ==> !(Kept(rs[j]) && AssetOf(rs[j]) == a)
    ensures a !in Group(rs)
  {
    if rs != [] {
      var n := |rs| - 1;
      assert forall j :: 0 <= j < n ==> rs[..n][j] == rs[j];
      NotInGroup(rs[..n], a);
    }
  }

  /** The number of records with an `assetName`. */
  function KeptCount(rs: seq<Record>): nat {
    if rs == [] then 0 else KeptCount(rs[..|rs| - 1]) + (if Kept(rs[|rs| - 1]) then 1 else 0)
  }

  /** The number of entries over the listed assets. */
  function EntryCount(rs: seq<Record>, assets: seq<string>): nat {
    if assets == [] then 0 else |EntriesOf(rs, assets[0])| + EntryCount(rs, assets[1..])
  }

  lemma {:induction false} EntryCountStep(rs: seq<Record>, r: Record, assets: seq<string>)
    requires Distinct(assets)
    ensures EntryCount(rs + [r], assets) ==
      EntryCount(rs, assets) + (if Kept(r) && AssetOf(r) in assets then 1 else 0)
  {
    if assets != [] {
      assert (rs + [r])[..|rs|] == rs;
      EntryCountStep(rs, r, assets[1..]);
      assert AssetOf(r) in assets <==> AssetOf(r) == assets[0] || AssetOf(r) in assets[1..];
    }
  }

  lemma {:induction false} EntryCountEmpty(assets: seq<string>)
    ensures EntryCount([], assets) == 0
  {
    if assets != [] {
      EntryCountEmpty(assets[1..]);
    }
  }

  /** Over assets covering every kept record, the entries add up to the
      number of kept records. */
  lemma {:induction false} EntryCountTotal(rs: seq<Record>, assets: seq<string>)
    requires Distinct(assets)
    requires forall i :: 0 <= i < |rs| && Kept(rs[i]) ==> AssetOf(rs[i]) in assets
    ensures EntryCount(rs, assets) == KeptCount(rs)
  {
    if rs == [] {
      EntryCountEmpty(assets);
    } else {
      var n := |rs| - 1;
      assert rs == rs[..n] + [rs[n]];
      assert forall i :: 0 <= i < n ==> rs[..n][i] == rs[i];
      EntryCountTotal(rs[..n], assets);
      EntryCountStep(rs[..n], rs[n], assets);
    }
  }

  /** The groups partition the kept records: listed in any order, the
      groups' entries add up to the number of records with an `assetName`. */
  lemma GroupsPartition(rs: seq<Record>, assets: seq<string>)
    requires Enumerates(assets, Group(rs).Keys)
    ensures EntryCount(rs, assets) == KeptCount(rs)
  {
    forall i | 0 <= i < |rs| && Kept(rs[i])
      ensures AssetOf(rs[i]) in assets
    {
      if AssetOf(rs[i]) !in Group(rs) {
        NotInGroupConverse(rs, i);
      }
    }
    EntryCountTotal(rs, assets);
  }

  /** The asset of a kept record has a group. */
  lemma {:induction false} NotInGroupConverse(rs: seq<Record>, i: nat)
    requires i < |rs| && Kept(rs[i])
    ensures AssetOf(rs[i]) in Group(rs)
  {
    var n := |rs| - 1;
    if i < n {
      assert rs[..n][i] == rs[i];
      NotInGroupConverse(rs[..n], i);
    }
  }

  /** `${v ?? '-'}` */
  function Dash(v: Val): (r: string)
    ensures Nullish(v) ==> r == "-"
    ensures v.Str? ==> r == v.s
  {
    OrElse(v, "-")
  }

  /** The cells of one row: DATE, CARTRIDGE, EVENT, ACTION, RESULT. */
  function Cells(e: Entry): (cs: seq<string>)
    ensures |cs| == 5
  {
    [Dash(e.date), Dash(e.cartridge), Dash(e.event), Dash(e.action), Dash(e.result)]
  }

  /** One asset's heading, location line and rows. */
  datatype AssetTable = AssetTable(asset: string, location: string, rows: seq<seq<string>>)

  /** Table `t` is the one of asset `a`: one row per entry, in order. */
  ghost predicate TableFor(g: Grouped, a: string, t: AssetTable) {
    && a in g && t.asset == a && t.location == ToText(g[a].location)
    && |t.rows| == |g[a].entries|
    && (forall j :: 0 <= j < |t.rows| ==> t.rows[j] == Cells(g[a].entries[j]))
  }

  method RenderAsset(g: Grouped, a: string) returns (t: AssetTable)
    requires a in g
    ensures TableFor(g, a, t)
  {
    var rows: seq<seq<string>> := [];
    for j := 0 to |g[a].entries|
      invariant |rows| == j
      invariant forall k :: 0 <= k < j ==> rows[k] == Cells(g[a].entries[k])
    {
      rows := rows + [Cells(g[a].entries[j])];
    }
    t := AssetTable(a, ToText(g[a].location), rows);
  }

  /** The tables of the first assets, in order. */
  ghost predicate TablesFor(g: Grouped, assets: seq<string>, tables: seq<AssetTable>) {
    && |tables| <= |assets|
    && (forall j :: 0 <= j < |tables| ==> tables[j].asset == assets[j])
    && (forall j :: 0 <= j < |tables| ==> TableFor(g, assets[j], tables[j]))
  }

  lemma TablesForStep(g: Grouped, assets: seq<string>, tables: seq<AssetTable>, t: AssetTable)
    requires TablesFor(g, assets, tables) && |tables| < |assets|
    requires t.asset == assets[|tables|] && TableFor(g, assets[|tables|], t)
    ensures TablesFor(g, assets, tables + [t])
  {
  }

  lemma TablesForAll(g: Grouped, assets: seq<string>, tables: seq<AssetTable>)
    requires Distinct(assets) && TablesFor(g, assets, tables) && |tables| == |assets|
    ensures forall i, j :: 0 <= i < j < |tables| ==> tables[i].asset != tables[j].asset
    ensures forall i :: 0 <= i < |tables| ==> TableFor(g, tables[i].asset, tables[i])
  {
  }

  /** One table per asset, in `Object.entries` order. */
  method Render(g: Grouped) returns (tables: seq<AssetTable>)
    ensures |tables| == |g|
    ensures forall i, j :: 0 <= i < j < |tables| ==> tables[i].asset != tables[j].asset
    ensures forall i :: 0 <= i < |tables| ==> TableFor(g, tables[i].asset, tables[i])
  {
    var assets := Enumerate(g.Keys);
    tables := [];
    for i := 0 to |assets|
      invariant |tables| == i && TablesFor(g, assets, tables)
    {
      var t := RenderAsset(g, assets[i]);
      TablesForStep(g, assets, tables, t);
      tables := tables + [t];
    }
    TablesForAll(g, assets, tables);
  }

  /** The whole report: any line that is not JSON aborts the run (an empty
      file included); otherwise one table per asset. */
  method Report(file: seq<Line>) returns (r: Result<seq<AssetTable>>)
    ensures r.Failure? <==> ReadStrict(file).Failure?
    ensures r.Ok? ==>
      var g := Group(ReadStrict(file).value);
      && |r.value| == |g|
      && (forall i, j :: 0 <= i < j < |r.value| ==> r.value[i].asset != r.value[j].asset)
      && (forall i :: 0 <= i < |r.value| ==> TableFor(g, r.value[i].asset, r.value[i]))
  {
    var read := ReadStrict(file);
    if read.Failure? {
      return Failure(read.at);
    }
    var g := GroupByAsset(read.value);
    var tables := Render(g);
    return Ok(tables);
  }
}
