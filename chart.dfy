/** The chart pre-processing of the dashboard history: each NDJSON line
    becomes a point, the points are grouped per asset and calendar day
    keeping the latest reading of each day, and the kept readings are laid
    out on one sorted time axis, one data series per asset. */
module Chart {

  import opened Options
  import opened Text
  import opened Records

  /** What `parseLine` returns for a line `JSON.parse` accepts. */
  datatype Point = Point(
    timestamp: Val, assetName: Val, location: Option<string>, serialNumber: Val,
    effectiveTests: Option<nat>)

  /** The longest prefix of `s` made of digits. */
  function LeadingDigits(s: string): (r: string)
    ensures |r| <= |s| && r == s[..|r|]
    ensures forall i :: 0 <= i < |r| ==> IsDigit(r[i])
    ensures |r| == |s| || !IsDigit(s[|r|])
  {
    if s != [] && IsDigit(s[0]) then [s[0]] + LeadingDigits(s[1..]) else []
  }

  /** The position of the first digit of `s`, if it has one. */
  function FirstDigit(s: string): (r: Option<nat>)
    ensures r.None? <==> !HasDigit(s)
    ensures r.Some? ==> r.value < |s| && IsDigit(s[r.value])
    ensures r.Some? ==> forall i :: 0 <= i < r.value ==> !IsDigit(s[i])
  {
    if s == [] then None
    else if IsDigit(s[0]) then Some(0)
    else
      match FirstDigit(s[1..])
      case None =>
        assert forall i :: 1 <= i < |s| ==> s[i] == s[1..][i - 1];
        None
      case Some(i) => Some(i + 1)
  }

  /** `v?.match(/\d+/)`, then `parseInt` of the match, or `null` when
      nothing matches. */
  function EffectiveValue(v: Val): (r: Option<nat>)
    ensures !v.Str? ==> r.None?
  {
    if v.Str? then
      match FirstDigit(v.s)
      case None => None
      case Some(i) => Some(DecValue(LeadingDigits(v.s[i..])))
    else None
  }

  /** The value is that of the first maximal run of digits, and there is
      none exactly when the text has no digit. */
  lemma EffectiveValueSpec(s: string)
    ensures EffectiveValue(Str(s)).None? <==> !HasDigit(s)
    ensures EffectiveValue(Str(s)).Some? ==>
      exists i, j :: 0 <= i < j <= |s| && (forall k :: 0 <= k < i ==> !IsDigit(s[k]))
        && IsDigits(s[i..j]) && (j == |s| || !IsDigit(s[j]))
        && EffectiveValue(Str(s)).value == DecValue(s[i..j])
  {
    var f := FirstDigit(s);
    if f.Some? {
      var i := f.value;
      var run := LeadingDigits(s[i..]);
      var j := i + |run|;
      assert s[i..][0] == s[i];
      assert |run| > 0;
      assert s[i..j] == run;
      assert j == |s| || s[j] == s[i..][|run|];
    }
  }

  /** `v?.split('/')[0]?.trim()` */
  function Location(v: Val): (r: Option<string>)
    ensures r.Some? <==> v.Str?
  {
    if v.Str? then Some(Trim(BeforeFirst(v.s, '/'))) else None
  }

  /** The location is the trimmed text before the first `/`, or the whole
      text trimmed when it has none (`i == |s|`). */
  lemma LocationSpec(s: string, i: nat)
    requires i <= |s| && (i == |s| || s[i] == '/')
    requires forall j :: 0 <= j < i ==> s[j] != '/'
    ensures Location(Str(s)) == Some(Trim(s[..i]))
  {
    var r := BeforeFirst(s, '/');
    assert |r| == i;
  }

  /** `parseLine` applied to a parsed object. */
  function ParseRecord(rec: Record): Point {
    Point(Get(rec, "timestamp"), Get(rec, "assetName"), Location(Get(rec, "cartridgeLocation")),
          Get(rec, "serialNumber"), EffectiveValue(Get(rec, "EFFECTIVE TESTS")))
  }

  /** `parseLine`: `null` for a line `JSON.parse` rejects. */
  function ParseLine(l: Line): (r: Option<Point>)
    ensures r.Some? <==> l.Json?
  {
    match l
    case Json(rec) => Some(ParseRecord(rec))
    case Text(_) => None
  }

  /** The points a line contributes: its point, or none. */
  function Found(l: Line): (r: seq<Point>)
    ensures |r| <= 1
  {
    match ParseLine(l) case Some(p) => [p] case None => []
  }

  /** The points of a file: one per line that parses, in line order. */
  function Points(ls: seq<Line>): seq<Point> {
    if ls == [] then [] else Found(ls[0]) + Points(ls[1..])
  }

  lemma PointsStep(ls: seq<Line>, i: nat)
    requires i < |ls|
    ensures Points(ls[i..]) == Found(ls[i]) + Points(ls[i + 1..])
  {
    var t := ls[i..];
    assert t[1..] == ls[i + 1..];
  }

  lemma FoundIs(l: Line)
    ensures Found(l) == if ParseLine(l).Some? then [ParseLine(l).value] else []
  {
  }

  /** `run`'s read loop: pushes every non-null `parseLine` result. */
  method ReadPoints(ls: seq<Line>) returns (ps: seq<Point>)
    ensures ps == Points(ls)
  {
    ps := [];
    for i := 0 to |ls|
      invariant Points(ls) == ps + Points(ls[i..])
    {
      PointsStep(ls, i);
      AppendAssoc(ps, Found(ls[i]), Points(ls[i + 1..]));
      FoundIs(ls[i]);
      var parsed := ParseLine(ls[i]);
      if parsed.Some? {
        ps := ps + [parsed.value];
      } else {
        assert ps + [] == ps;
      }
    }
  }

  /** Lines that all parse give one point each, in order. */
  lemma {:induction false} PointsOfJson(ls: seq<Line>, rs: seq<Record>)
    requires |ls| == |rs| && forall i :: 0 <= i < |ls| ==> ls[i] == Json(rs[i])
    ensures |Points(ls)| == |rs|
    ensures forall i :: 0 <= i < |rs| ==> Points(ls)[i] == ParseRecord(rs[i])
  {
    if ls != [] {
      PointsOfJson(ls[1..], rs[1..]);
      assert Found(ls[0]) == [ParseRecord(rs[0])];
      var ps := Points(ls);
      forall i | 0 < i < |rs| ensures ps[i] == ParseRecord(rs[i]) {
        assert ps[i] == Points(ls[1..])[i - 1];
        assert rs[1..][i - 1] == rs[i];
      }
    }
  }

  /** A line that does not parse adds no point. */
  lemma {:induction false} PointsAppendText(ls: seq<Line>, t: string)
    ensures Points(ls + [Text(t)]) == Points(ls)
  {
    if ls == [] {
      assert Points([Text(t)]) == Found(Text(t)) + Points([]);
    } else {
      assert (ls + [Text(t)])[1..] == ls[1..] + [Text(t)];
      PointsAppendText(ls[1..], t);
    }
  }

  /** Every record of a log the dashboard scraper wrote becomes exactly one
      point, in file order; the final empty line is skipped. */
  lemma PointsOfLog(rs: seq<Record>)
    ensures |Points(LogLines(rs))| == |rs|
    ensures forall i :: 0 <= i < |rs| ==> Points(LogLines(rs))[i] == ParseRecord(rs[i])
  {
    var ls := LogLines(rs)[..|rs|];
    assert LogLines(rs) == ls + [Text("")];
    assert forall i :: 0 <= i < |ls| ==> ls[i] == Json(rs[i]);
    PointsAppendText(ls, "");
    PointsOfJson(ls, rs);
  }

  /** `timestamp.slice(0, 10)`: the calendar day of an ISO timestamp. */
  function DayKey(ts: string): (d: string)
    ensures |d| <= 10 && |d| <= |ts| && d == ts[..|d|]
    ensures |d| == if |ts| < 10 then |ts| else 10
  {
    if |ts| <= 10 then ts else ts[..10]
  }

  /** `{ timestamp, effectiveTests, serialNumber }` kept for one day. */
  datatype DayRecord = DayRecord(timestamp: string, effectiveTests: Option<nat>, serialNumber: Val)

  /** `{ location, recordsByDay }` */
  datatype AssetGroup = AssetGroup(location: Option<string>, byDay: map<string, DayRecord>)

  type Grouped = map<string, AssetGroup>

  /** `grouped[assetName]` names the property `String(assetName)`. */
  function AssetKey(p: Point): string {
    ToText(p.assetName)
  }

  /** Every point has a string timestamp (otherwise `slice` throws). */
  predicate Timed(ps: seq<Point>) {
    forall i :: 0 <= i < |ps| ==> ps[i].timestamp.Str?
  }

  function DayOf(p: Point): string
    requires p.timestamp.Str?
  {
    DayKey(p.timestamp.s)
  }

  function RecordOf(p: Point): DayRecord
    requires p.timestamp.Str?
  {
    DayRecord(p.timestamp.s, p.effectiveTests, p.serialNumber)
  }

  /** One iteration of the `forEach` in `groupByAssetAndDay`. */
  function Step(g: Grouped, p: Point): Grouped
    requires p.timestamp.Str?
  {
    var a := AssetKey(p);
    var group := if a in g then g[a] else AssetGroup(p.location, map[]);
    var d := DayOf(p);
    if d !in group.byDay || StrLt(group.byDay[d].timestamp, p.timestamp.s)
    then g[a := group.(byDay := group.byDay[d := RecordOf(p)])]
    else g
  }

  /** The grouping of a sequence of points, processed in order. */
  function Fold(ps: seq<Point>): Grouped
    requires Timed(ps)
  {
    if ps == [] then map[] else Step(Fold(ps[..|ps| - 1]), ps[|ps| - 1])
  }

  /** `groupByAssetAndDay`, which throws (`None`) at the first point whose
      timestamp is not a string. */
  method GroupByAssetAndDay(ps: seq<Point>) returns (r: Option<Grouped>)
    ensures r.None? <==> !Timed(ps)
    ensures r.Some? ==> Timed(ps) && r.value == Fold(ps)
  {
    var grouped: Grouped := map[];
    for i := 0 to |ps|
      invariant Timed(ps[..i]) && grouped == Fold(ps[..i])
    {
      assert ps[..i + 1][..i] == ps[..i];
      var p := ps[i];
      if !p.timestamp.Str? {
        return None;
      }
      assert Timed(ps[..i + 1]);
      assert Fold(ps[..i + 1]) == Step(grouped, p);
      var a := AssetKey(p);
      if a !in grouped {
        grouped := grouped[a := AssetGroup(p.location, map[])];
      }
      var day := DayKey(p.timestamp.s);
      if day !in grouped[a].byDay || StrLt(grouped[a].byDay[day].timestamp, p.timestamp.s) {
        grouped := grouped[a := grouped[a].(byDay := grouped[a].byDay[day := RecordOf(p)])];
      }
    }
    assert ps[..|ps|] == ps;
    return Some(grouped);
  }

  /** A step touches only the point's asset, and within it only the
      point's day. */
  lemma StepOther(g: Grouped, p: Point, a: string, d: string)
    requires p.timestamp.Str?
    requires a != AssetKey(p) || d != DayOf(p)
    ensures a in Step(g, p) <==> a in g || a == AssetKey(p)
    ensures (a in Step(g, p) && d in Step(g, p)[a].byDay) <==> (a in g && d in g[a].byDay)
    ensures a in g && d in g[a].byDay ==> Step(g, p)[a].byDay[d] == g[a].byDay[d]
  {
  }

  /** What a step keeps for the point's own asset and day. */
  lemma StepSame(g: Grouped, p: Point)
    requires p.timestamp.Str?
    ensures var a := AssetKey(p); var d := DayOf(p);
      && a in Step(g, p) && d in Step(g, p)[a].byDay
      && Step(g, p)[a].byDay[d] ==
         if a in g && d in g[a].byDay && !StrLt(g[a].byDay[d].timestamp, p.timestamp.s)
         then g[a].byDay[d] else RecordOf(p)
  {
  }

  /** The assets of the grouping are exactly those of the input. */
  lemma {:induction false} FoldAssets(ps: seq<Point>, a: string)
    requires Timed(ps)
    ensures a in Fold(ps) <==> exists i :: 0 <= i < |ps| && AssetKey(ps[i]) == a
  {
    if ps != [] {
      var n := |ps| - 1;
      FoldAssets(ps[..n], a);
      if exists i :: 0 <= i < n && AssetKey(ps[..n][i]) == a {
        var i :| 0 <= i < n && AssetKey(ps[..n][i]) == a;
        assert ps[i] == ps[..n][i];
      }
      if exists i :: 0 <= i < |ps| && AssetKey(ps[i]) == a {
        var i :| 0 <= i < |ps| && AssetKey(ps[i]) == a;
        if i < n {
          assert ps[..n][i] == ps[i];
        }
      }
    }
  }

  /** An asset's location is that of its first point. */
  lemma {:induction false} FoldLocation(ps: seq<Point>, i: nat)
    requires Timed(ps) && i < |ps|
    requires forall j :: 0 <= j < i ==> AssetKey(ps[j]) != AssetKey(ps[i])
    ensures AssetKey(ps[i]) in Fold(ps) && Fold(ps)[AssetKey(ps[i])].location == ps[i].location
  {
    var n := |ps| - 1;
    var a := AssetKey(ps[i]);
    if i == n {
      FoldAssets(ps[..n], a);
    } else {
      assert ps[..n][i] == ps[i];
      FoldLocation(ps[..n], i);
    }
  }

  /** Point `i` belongs to asset `a` and falls on day `d`. */
  predicate Owns(ps: seq<Point>, a: string, d: string, i: int) {
    0 <= i < |ps| && ps[i].timestamp.Str? && AssetKey(ps[i]) == a && DayOf(ps[i]) == d
  }

  /** An asset has a record for a day exactly when one of its points falls
      on that day. */
  lemma {:induction false} FoldDays(ps: seq<Point>, a: string, d: string)
    requires Timed(ps)
    ensures (a in Fold(ps) && d in Fold(ps)[a].byDay) <==> exists i :: Owns(ps, a, d, i)
  {
    if ps != [] {
      var n := |ps| - 1;
      var p := ps[n];
      FoldDays(ps[..n], a, d);
      if a == AssetKey(p) && d == DayOf(p) {
        StepSame(Fold(ps[..n]), p);
        assert Owns(ps, a, d, n);
      } else {
        StepOther(Fold(ps[..n]), p, a, d);
        if exists i :: Owns(ps[..n], a, d, i) {
          var i :| Owns(ps[..n], a, d, i);
          assert ps[..n][i] == ps[i];
          assert Owns(ps, a, d, i);
        }
        if exists i :: Owns(ps, a, d, i) {
          var i :| Owns(ps, a, d, i);
          assert ps[..n][i] == ps[i];
          assert Owns(ps[..n], a, d, i);
        }
      }
    }
  }

  /** Every kept record is filed under its own day. */
  predicate WellKeyed(group: AssetGroup) {
    forall d :: d in group.byDay ==> DayKey(group.byDay[d].timestamp) == d
  }

  lemma {:induction false} FoldWellKeyed(ps: seq<Point>, a: string)
    requires Timed(ps) && a in Fold(ps)
    ensures WellKeyed(Fold(ps)[a])
  {
    var n := |ps| - 1;
    var g := Fold(ps[..n]);
    var p := ps[n];
    if a in g {
      FoldWellKeyed(ps[..n], a);
    }
    forall d | d in Fold(ps)[a].byDay
      ensures DayKey(Fold(ps)[a].byDay[d].timestamp) == d
    {
      if a == AssetKey(p) && d == DayOf(p) {
        StepSame(g, p);
      } else {
        StepOther(g, p, a, d);
      }
    }
  }

  /** Point `i` is the one kept for asset `a` on day `d`: every earlier
      point of that asset and day has a strictly smaller timestamp and no
      later one a greater timestamp. */
  predicate KeptAt(ps: seq<Point>, a: string, d: string, i: int) {
    && Owns(ps, a, d, i)
    && (forall j :: 0 <= j < i && Owns(ps, a, d, j) ==> StrLt(ps[j].timestamp.s, ps[i].timestamp.s))
    && (forall j :: i < j < |ps| && Owns(ps, a, d, j) ==> !StrLt(ps[i].timestamp.s, ps[j].timestamp.s))
  }

  lemma OwnsPrefix(ps: seq<Point>, a: string, d: string)
    requires ps != []
    ensures forall j :: Owns(ps[..|ps| - 1], a, d, j) <==> j < |ps| - 1 && Owns(ps, a, d, j)
  {
    assert forall j :: 0 <= j < |ps| - 1 ==> ps[..|ps| - 1][j] == ps[j];
  }

  /** The last point is the first of its asset and day. */
  lemma KeptFirst(ps: seq<Point>, a: string, d: string)
    requires ps != [] && Owns(ps, a, d, |ps| - 1)
    requires forall j :: 0 <= j < |ps| - 1 ==> !Owns(ps, a, d, j)
    ensures KeptAt(ps, a, d, |ps| - 1)
  {
  }

  /** The last point has a greater timestamp than the one kept so far. */
  lemma KeptReplaced(ps: seq<Point>, a: string, d: string, i: nat)
    requires ps != [] && Owns(ps, a, d, |ps| - 1) && KeptAt(ps[..|ps| - 1], a, d, i)
    requires StrLt(ps[i].timestamp.s, ps[|ps| - 1].timestamp.s)
    ensures KeptAt(ps, a, d, |ps| - 1)
  {
    var n := |ps| - 1;
    OwnsPrefix(ps, a, d);
    var ti := ps[i].timestamp.s;
    var tn := ps[n].timestamp.s;
    forall j | 0 <= j < n && Owns(ps, a, d, j)
      ensures StrLt(ps[j].timestamp.s, tn)
    {
      assert Owns(ps[..n], a, d, j);
      var tj := ps[j].timestamp.s;
      if j < i {
        StrLtTransitive(tj, ti, tn);
      } else if i < j && tj != ti {
        StrLtTotal(tj, ti);
        StrLtTransitive(tj, ti, tn);
      }
    }
  }

  /** The last point has no greater timestamp than the one kept so far. */
  lemma KeptStays(ps: seq<Point>, a: string, d: string, i: nat)
    requires ps != [] && KeptAt(ps[..|ps| - 1], a, d, i)
    requires Owns(ps, a, d, |ps| - 1) ==> !StrLt(ps[i].timestamp.s, ps[|ps| - 1].timestamp.s)
    ensures KeptAt(ps, a, d, i)
  {
    OwnsPrefix(ps, a, d);
  }

  /** The record kept for each asset and day is that of its point with the
      greatest timestamp, the first one among equal timestamps. */
  lemma {:induction false} FoldKeepsLatest(ps: seq<Point>, a: string, d: string)
    requires Timed(ps) && a in Fold(ps) && d in Fold(ps)[a].byDay
    ensures exists i :: KeptAt(ps, a, d, i) && Fold(ps)[a].byDay[d] == RecordOf(ps[i])
  {
    var n := |ps| - 1;
    var g := Fold(ps[..n]);
    var p := ps[n];
    if a == AssetKey(p) && d == DayOf(p) {
      StepSame(g, p);
      if a in g && d in g[a].byDay {
        FoldKeepsLatest(ps[..n], a, d);
        var i :| KeptAt(ps[..n], a, d, i) && g[a].byDay[d] == RecordOf(ps[..n][i]);
        assert ps[..n][i] == ps[i];
        if !StrLt(ps[i].timestamp.s, p.timestamp.s) {
          KeptStays(ps, a, d, i);
        } else {
          KeptReplaced(ps, a, d, i);
        }
      } else {
        FoldDays(ps[..n], a, d);
        OwnsPrefix(ps, a, d);
        KeptFirst(ps, a, d);
      }
    } else {
      StepOther(g, p, a, d);
      FoldKeepsLatest(ps[..n], a, d);
      var i :| KeptAt(ps[..n], a, d, i) && g[a].byDay[d] == RecordOf(ps[..n][i]);
      assert ps[..n][i] == ps[i];
      KeptStays(ps, a, d, i);
    }
  }

  /** Every timestamp of a kept record. */
  function KeptTimestamps(g: Grouped): set<string> {
    set a, d | a in g && d in g[a].byDay :: g[a].byDay[d].timestamp
  }

  lemma StrictlySortedDistinct(s: seq<string>)
    requires StrictlySorted(s)
    ensures Distinct(s)
  {
    forall i, j | 0 <= i < j < |s|
      ensures s[i] != s[j]
    {
      if s[i] == s[j] {
        StrLtIrreflexive(s[i]);
      }
    }
  }

  /** `allTimestamps`: the distinct kept timestamps, sorted. */
  method SortedTimestamps(g: Grouped) returns (labels: seq<string>)
    ensures StrictlySorted(labels)
    ensures forall t :: t in labels <==> t in KeptTimestamps(g)
  {
    var ts := Enumerate(KeptTimestamps(g));
    labels := [];
    for i := 0 to |ts|
      invariant StrictlySorted(labels)
      invariant forall t :: t in labels <==> t in ts[..i]
    {
      assert ts[..i + 1] == ts[..i] + [ts[i]];
      labels := Insert(labels, ts[i]);
    }
    assert ts[..|ts|] == ts;
  }

  /** `timestampToIndex[t]`, from `Object.fromEntries(labels.map((ts, i)
      => [ts, i]))`: for a repeated label the last index wins. */
  function LabelIndex(labels: seq<string>, t: string): (r: Option<nat>)
    ensures r.Some? ==> r.value < |labels| && labels[r.value] == t
    ensures r.None? <==> t !in labels
  {
    if labels == [] then None
    else if labels[|labels| - 1] == t then Some(|labels| - 1)
    else
      assert labels == labels[..|labels| - 1] + [labels[|labels| - 1]];
      LabelIndex(labels[..|labels| - 1], t)
  }

  /** The record of an asset with timestamp `t`, looked up under `t`'s day. */
  function RecordAt(group: AssetGroup, t: string): Option<DayRecord> {
    var d := DayKey(t);
    if d in group.byDay && group.byDay[d].timestamp == t then Some(group.byDay[d]) else None
  }

  /** `record.serialNumber || 'N/A'` */
  function SerialOf(r: DayRecord): string {
    OrIfFalsy(r.serialNumber, "N/A")
  }

  /** The `data` array of an asset's dataset. */
  function Series(labels: seq<string>, group: AssetGroup): seq<Option<nat>> {
    seq(|labels|, i requires 0 <= i < |labels| =>
      match RecordAt(group, labels[i]) case Some(r) => r.effectiveTests case None => None)
  }

  /** The `serials` array of an asset's dataset. */
  function Serials(labels: seq<string>, group: AssetGroup): seq<Option<string>> {
    seq(|labels|, i requires 0 <= i < |labels| =>
      match RecordAt(group, labels[i]) case Some(r) => Some(SerialOf(r)) case None => None)
  }

  /** Both arrays have one slot per label. Slot `i` holds the reading and
      the serial (`N/A` when falsy) of the asset's record whose timestamp
      is label `i`, and `null` when the asset has no such record. */
  lemma SeriesSpec(labels: seq<string>, group: AssetGroup, i: nat, d: string)
    requires WellKeyed(group) && i < |labels|
    ensures |Series(labels, group)| == |labels| && |Serials(labels, group)| == |labels|
    ensures d in group.byDay && group.byDay[d].timestamp == labels[i] ==>
      Series(labels, group)[i] == group.byDay[d].effectiveTests &&
      Serials(labels, group)[i] == Some(OrIfFalsy(group.byDay[d].serialNumber, "N/A"))
    ensures (forall e :: e in group.byDay ==> group.byDay[e].timestamp != labels[i]) ==>
      Series(labels, group)[i] == None && Serials(labels, group)[i] == None
  {
  }

  /** What the arrays hold once the records of the days in `done` are
      placed: a label's slot is filled once its day has been visited. */
  ghost predicate Filled(labels: seq<string>, group: AssetGroup, done: seq<string>,
                         data: seq<Option<nat>>, serials: seq<Option<string>>) {
    && |data| == |labels| && |serials| == |labels|
    && (forall i :: 0 <= i < |labels| ==>
          data[i] == (if DayKey(labels[i]) in done then Series(labels, group)[i] else None))
    && (forall i :: 0 <= i < |labels| ==>
          serials[i] == (if DayKey(labels[i]) in done then Serials(labels, group)[i] else None))
  }

  /** The slots of the labels of day `d` hold that day's record exactly
      when the record's timestamp is the label. */
  lemma SlotOfDay(labels: seq<string>, group: AssetGroup, i: nat, d: string)
    requires WellKeyed(group) && i < |labels| && d in group.byDay && DayKey(labels[i]) == d
    ensures var record := group.byDay[d];
      && Series(labels, group)[i] == (if record.timestamp == labels[i] then record.effectiveTests else None)
      && Serials(labels, group)[i] == (if record.timestamp == labels[i] then Some(SerialOf(record)) else None)
  {
  }

  /** Visiting a day whose record's timestamp is no label fills nothing. */
  lemma FillNone(labels: seq<string>, group: AssetGroup, done: seq<string>, d: string,
                 data: seq<Option<nat>>, serials: seq<Option<string>>)
    requires WellKeyed(group) && Filled(labels, group, done, data, serials)
    requires d in group.byDay && d !in done && group.byDay[d].timestamp !in labels
    ensures Filled(labels, group, done + [d], data, serials)
  {
    forall i | 0 <= i < |labels|
      ensures DayKey(labels[i]) in done + [d] <==> DayKey(labels[i]) in done || DayKey(labels[i]) == d
    {
    }
    forall i | 0 <= i < |labels| && DayKey(labels[i]) == d
      ensures Series(labels, group)[i] == None && Serials(labels, group)[i] == None
    {
      SlotOfDay(labels, group, i, d);
    }
  }

  /** Visiting a day whose record's timestamp is label `k` fills slot `k`
      and no other. */
  lemma FillSome(labels: seq<string>, group: AssetGroup, done: seq<string>, d: string, k: nat,
                 data: seq<Option<nat>>, serials: seq<Option<string>>)
    requires Distinct(labels) && WellKeyed(group) && Filled(labels, group, done, data, serials)
    requires d in group.byDay && d !in done
    requires k < |labels| && labels[k] == group.byDay[d].timestamp
    ensures var record := group.byDay[d];
      Filled(labels, group, done + [d],
             data[k := record.effectiveTests], serials[k := Some(SerialOf(record))])
  {
    var record := group.byDay[d];
    forall i | 0 <= i < |labels|
      ensures DayKey(labels[i]) in done + [d] <==> DayKey(labels[i]) in done || DayKey(labels[i]) == d
    {
    }
    forall i | 0 <= i < |labels| && DayKey(labels[i]) == d
      ensures Series(labels, group)[i] == (if i == k then record.effectiveTests else None)
      ensures Serials(labels, group)[i] == (if i == k then Some(SerialOf(record)) else None)
    {
      SlotOfDay(labels, group, i, d);
    }
    SlotOfDay(labels, group, k, d);
  }

  /** Once every day is visited, the arrays are the asset's series. */
  lemma FilledAll(labels: seq<string>, group: AssetGroup, days: seq<string>,
                  data: seq<Option<nat>>, serials: seq<Option<string>>)
    requires WellKeyed(group) && Filled(labels, group, days, data, serials)
    requires forall e :: e in group.byDay ==> e in days
    ensures data == Series(labels, group) && serials == Serials(labels, group)
  {
    forall i | 0 <= i < |labels| && DayKey(labels[i]) !in days
      ensures Series(labels, group)[i] == None && Serials(labels, group)[i] == None
    {
    }
  }

  /** Fills the `data` and `serials` arrays of one asset, visiting its
      records in `Object.values` order. */
  method FillSeries(labels: seq<string>, group: AssetGroup)
    returns (data: array<Option<nat>>, serials: array<Option<string>>)
    requires Distinct(labels) && WellKeyed(group)
    ensures fresh(data) && fresh(serials)
    ensures data[..] == Series(labels, group) && serials[..] == Serials(labels, group)
  {
    data := new Option<nat>[|labels|](_ => None);
    serials := new Option<string>[|labels|](_ => None);
    var days := Enumerate(group.byDay.Keys);
    for j := 0 to |days|
      invariant Filled(labels, group, days[..j], data[..], serials[..])
    {
      assert days[..j + 1] == days[..j] + [days[j]];
      assert days[j] !in days[..j];
      var record := group.byDay[days[j]];
      var index := LabelIndex(labels, record.timestamp);
      if index.Some? {
        FillSome(labels, group, days[..j], days[j], index.value, data[..], serials[..]);
        data[index.value] := record.effectiveTests;
        serials[index.value] := Some(SerialOf(record));
      } else {
        FillNone(labels, group, days[..j], days[j], data[..], serials[..]);
      }
    }
    assert days[..|days|] == days;
    FilledAll(labels, group, days, data[..], serials[..]);
  }

  /** One line of the chart. */
  datatype Dataset = Dataset(title: string, data: seq<Option<nat>>, serials: seq<Option<string>>)

  /** `assetName + "\n" + (location || '')` */
  function Label(asset: string, location: Option<string>): string {
    asset + "\n" + (if location.Some? then location.value else "")
  }

  /** One dataset per asset, in `Object.entries` order. */
  method ChartDatasets(g: Grouped, labels: seq<string>) returns (assets: seq<string>, ds: seq<Dataset>)
    requires Distinct(labels)
    requires forall a :: a in g ==> WellKeyed(g[a])
    ensures Enumerates(assets, g.Keys) && |ds| == |assets|
    ensures forall i :: 0 <= i < |ds| ==>
      (assets[i] in g &&
       ds[i] == Dataset(Label(assets[i], g[assets[i]].location),
                        Series(labels, g[assets[i]]), Serials(labels, g[assets[i]])))
  {
    assets := Enumerate(g.Keys);
    ds := [];
    for i := 0 to |assets|
      invariant |ds| == i
      invariant forall k :: 0 <= k < i ==>
        ds[k] == Dataset(Label(assets[k], g[assets[k]].location),
                         Series(labels, g[assets[k]]), Serials(labels, g[assets[k]]))
    {
      var group := g[assets[i]];
      var data, serials := FillSeries(labels, group);
      ds := ds + [Dataset(Label(assets[i], group.location), data[..], serials[..])];
    }
  }

  /** The chart: its time axis, and one dataset per asset. */
  datatype ChartData = ChartData(labels: seq<string>, assets: seq<string>, datasets: seq<Dataset>)

  /** `run` up to the HTML: read the points, group them and lay them out.
      The run throws (`None`) when a point's timestamp is not a string. */
  method BuildChart(lines: seq<Line>) returns (chart: Option<ChartData>)
    ensures chart.None? <==> !Timed(Points(lines))
    ensures chart.Some? ==>
      var g := Fold(Points(lines));
      var c := chart.value;
      && StrictlySorted(c.labels)
      && (forall t :: t in c.labels <==> t in KeptTimestamps(g))
      && Enumerates(c.assets, g.Keys) && |c.datasets| == |c.assets|
      && (forall i :: 0 <= i < |c.datasets| ==>
            (c.assets[i] in g &&
             c.datasets[i] == Dataset(Label(c.assets[i], g[c.assets[i]].location),
                                      Series(c.labels, g[c.assets[i]]), Serials(c.labels, g[c.assets[i]]))))
  {
    var ps := ReadPoints(lines);
    var grouped := GroupByAssetAndDay(ps);
    if grouped.None? {
      return None;
    }
    var g := grouped.value;
    forall a | a in g
      ensures WellKeyed(g[a])
    {
      FoldWellKeyed(ps, a);
    }
    var labels := SortedTimestamps(g);
    StrictlySortedDistinct(labels);
    var assets, ds := ChartDatasets(g, labels);
    return Some(ChartData(labels, assets, ds));
  }
}
