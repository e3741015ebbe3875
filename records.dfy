/** Records as the scripts see them: a scraped or NDJSON record is a map
    from field name to a JSON string or `null`; a field that is not in the
    map reads as `undefined`. An NDJSON file is a sequence of lines. */
module Records {

  import opened Options
  import opened Text

  /** What reading a field yields in JavaScript. */
  datatype Val = Undefined | Null | Str(s: string)

  /** A value a JSON text can hold (the scripts only store strings). */
  type Json = v: Val | !v.Undefined? witness Null

  type Record = map<string, Json>

  /** `r[k]` */
  function Get(r: Record, k: string): (v: Val)
    ensures v.Undefined? <==> k !in r
  {
    if k in r then r[k] else Undefined
  }

  /** `v == null` (true for both `null` and `undefined`) */
  predicate Nullish(v: Val) {
    v.Undefined? || v.Null?
  }

  /** JavaScript truthiness of a string-or-null value: the empty string is falsy. */
  predicate Truthy(v: Val) {
    v.Str? && v.s != ""
  }

  /** `v ?? d` */
  function OrElse(v: Val, d: string): (r: string)
    ensures Nullish(v) ==> r == d
    ensures v.Str? ==> r == v.s
  {
    if v.Str? then v.s else d
  }

  /** `v || d` */
  function OrIfFalsy(v: Val, d: string): (r: string)
    ensures Truthy(v) ==> r == v.s
    ensures !Truthy(v) ==> r == d
  {
    if Truthy(v) then v.s else d
  }

  /** `${v}` in a template literal, and the property key `obj[v]` names. */
  function ToText(v: Val): string {
    match v
    case Undefined => "undefined"
    case Null => "null"
    case Str(s) => s
  }

  /** One line of an NDJSON file: either the text of a JSON object or any
      other text, which `JSON.parse` rejects (an empty or blank line among them). */
  datatype Line = Json(rec: Record) | Text(s: string)

  predicate Blank(l: Line) {
    l.Text? && AllSpace(l.s)
  }

  /** The lines of a file written only by `appendFileSync(file,
      JSON.stringify(r) + '\n')`: one line per record, then the empty text
      after the last newline. An empty file is `[Text("")]`. */
  function LogLines(rs: seq<Record>): (ls: seq<Line>)
    ensures |ls| == |rs| + 1 && ls[|rs|] == Text("")
    ensures forall i :: 0 <= i < |rs| ==> ls[i] == Json(rs[i])
  {
    if rs == [] then [Text("")] else [Json(rs[0])] + LogLines(rs[1..])
  }

  function DropLeadingBlank(ls: seq<Line>): (r: seq<Line>)
    ensures |r| <= |ls| && r == ls[|ls| - |r|..]
    ensures forall i :: 0 <= i < |ls| - |r| ==> Blank(ls[i])
    ensures r != [] ==> !Blank(r[0])
  {
    if ls != [] && Blank(ls[0]) then
      var r := DropLeadingBlank(ls[1..]);
      assert ls[1..][|ls| - 1 - |r|..] == ls[|ls| - |r|..];
      r
    else ls
  }

  function DropTrailingBlank(ls: seq<Line>): (r: seq<Line>)
    ensures |r| <= |ls| && r == ls[..|r|]
    ensures forall i :: |r| <= i < |ls| ==> Blank(ls[i])
    ensures r != [] ==> !Blank(r[|r| - 1])
  {
    if ls != [] && Blank(ls[|ls| - 1]) then DropTrailingBlank(ls[..|ls| - 1]) else ls
  }

  /** `content.trim().split('\n')`: whitespace-only lines at either end
      disappear with the surrounding whitespace; a file with nothing else
      becomes the single empty line `['']`. The first and last remaining
      lines are taken as they are: a JSON text with whitespace around it
      (a byte-order mark, say), which `trim` would make parseable at either
      end of the file, is outside the model. */
  function TrimSplit(ls: seq<Line>): (r: seq<Line>)
    ensures r != []
  {
    var t := DropTrailingBlank(DropLeadingBlank(ls));
    if t == [] then [Text("")] else t
  }

  /** `lines.map(line => JSON.parse(line))`: the whole run aborts at the first
      line that is not JSON. */
  function ParseAll(ls: seq<Line>): (r: Result<seq<Record>>)
    ensures r.Ok? <==> forall i :: 0 <= i < |ls| ==> ls[i].Json?
    ensures r.Ok? ==> |r.value| == |ls| && forall i :: 0 <= i < |ls| ==> r.value[i] == ls[i].rec
    ensures r.Failure? ==> r.at < |ls| && ls[r.at].Text? && forall i :: 0 <= i < r.at ==> ls[i].Json?
  {
    if ls == [] then Ok([])
    else if ls[0].Text? then Failure(0)
    else
      match ParseAll(ls[1..])
      case Ok(rs) => Ok([ls[0].rec] + rs)
      case Failure(i) => Failure(i + 1)
  }

  /** The records of a log written by the scrapers survive `trim().split('\n')`:
      only the final empty line goes, or, for an empty log, the file
      becomes the single empty line. */
  lemma {:induction false} TrimSplitLog(rs: seq<Record>)
    ensures rs != [] ==> TrimSplit(LogLines(rs)) == LogLines(rs)[..|rs|]
    ensures rs == [] ==> TrimSplit(LogLines(rs)) == [Text("")]
  {
    var ls := LogLines(rs);
    var a := DropLeadingBlank(ls);
    if rs != [] {
      assert !Blank(ls[0]);
      assert a == ls;
      var t := DropTrailingBlank(ls);
      assert ls[..|ls| - 1] == ls[..|rs|];
      assert DropTrailingBlank(ls[..|rs|]) == ls[..|rs|] by {
        assert !Blank(ls[|rs| - 1]);
      }
      assert Blank(ls[|ls| - 1]);
      assert t == ls[..|rs|];
    } else {
      assert Blank(ls[0]);
    }
  }

  /** `readFileSync(f).trim().split('\n')` followed by `JSON.parse` of every
      line, as both CAR report generators read their input. */
  function ReadStrict(file: seq<Line>): Result<seq<Record>> {
    ParseAll(TrimSplit(file))
  }

  /** A log the scrapers wrote reads back as its records, except that an
      empty log aborts the run: its single empty line is not JSON. */
  lemma ReadStrictLog(rs: seq<Record>)
    ensures rs != [] ==> ReadStrict(LogLines(rs)) == Ok(rs)
    ensures rs == [] ==> ReadStrict(LogLines(rs)) == Failure(0)
  {
    TrimSplitLog(rs);
    if rs != [] {
      ParseAllJson(rs, LogLines(rs)[..|rs|]);
    }
  }

  /** Lines that are all JSON parse to their objects. */
  lemma ParseAllJson(rs: seq<Record>, ls: seq<Line>)
    requires |ls| == |rs| && forall i :: 0 <= i < |ls| ==> ls[i] == Json(rs[i])
    ensures ParseAll(ls) == Ok(rs)
  {
    var r := ParseAll(ls);
    assert r.Ok?;
    assert forall i :: 0 <= i < |rs| ==> r.value[i] == rs[i];
    assert r.value == rs;
  }

  lemma AppendAssoc<T>(x: seq<T>, y: seq<T>, z: seq<T>)
    ensures (x + y) + z == x + (y + z)
  {
  }

  /** Keys that are pairwise different. */
  predicate Distinct<K(==)>(ks: seq<K>) {
    forall i, j :: 0 <= i < j < |ks| ==> ks[i] != ks[j]
  }

  /** `ks` lists every element of `keys` exactly once. */
  ghost predicate Enumerates<K(!new)>(ks: seq<K>, keys: set<K>) {
    Distinct(ks) && (forall k :: k in keys <==> k in ks)
  }

  /** The keys of a JavaScript object in its enumeration order
      (`Object.keys`, `Object.entries`, `for ... in`). The engine's order
      (insertion order, with integer-like keys first) is not modelled: any
      duplicate-free listing may come out. */
  method Enumerate<K(!new,==)>(keys: set<K>) returns (ks: seq<K>)
    ensures Enumerates(ks, keys)
    ensures |ks| == |keys|
  {
    ks := [];
    var rest := keys;
    while rest != {}
      invariant Distinct(ks)
      invariant forall k :: k in keys <==> k in ks || k in rest
      invariant forall k :: k in ks ==> k !in rest
      invariant |ks| + |rest| == |keys|
      decreases |rest|
    {
      var k :| k in rest;
      ks := ks + [k];
      rest := rest - {k};
    }
  }

  /** An NDJSON output file, as the sequence of records written to it. */
  class Log {
    var records: seq<Record>

    constructor (initial: seq<Record>)
      ensures records == initial
    {
      records := initial;
    }

    /** The lines a reader of the file sees. */
    function Lines(): seq<Line>
      reads this
    {
      LogLines(records)
    }

    /** `fs.writeFileSync(file, '')` */
    method Truncate()
      modifies this
      ensures records == []
    {
      records := [];
    }

    /** `fs.appendFileSync(file, JSON.stringify(r) + '\n')` */
    method Append(r: Record)
      modifies this
      ensures records == old(records) + [r]
    {
      records := records + [r];
    }

    /** `for (const r of rs) fs.appendFileSync(file, JSON.stringify(r) + '\n')` */
    method AppendEach(rs: seq<Record>)
      modifies this
      ensures records == old(records) + rs
    {
      for i := 0 to |rs|
        invariant records == old(records) + rs[..i]
      {
        Append(rs[i]);
        assert rs[..i + 1] == rs[..i] + [rs[i]];
      }
      assert rs[..|rs|] == rs;
    }
  }
}
