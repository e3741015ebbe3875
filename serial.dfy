/** The serial number of an asset page: it is printed in the second span
    whose trimmed text starts with `Serial Number:`; the spans are given as
    their `innerText`, in document order. */
module Serial {

  import opened Options
  import opened Text
  import opened Records

  const SerialPrefix: string := "Serial Number:"

  /** The filter `span.innerText?.trim().startsWith('Serial Number:')`. */
  predicate IsSerialSpan(text: string) {
    StartsWith(Trim(text), SerialPrefix)
  }

  /** `spans.filter(keep)`, in document order. */
  function Filter(keep: string -> bool, spans: seq<string>): (r: seq<string>)
    ensures |r| <= |spans|
  {
    if spans == [] then []
    else (if keep(spans[0]) then [spans[0]] else []) + Filter(keep, spans[1..])
  }

  /** The serial spans, in document order. */
  function SerialSpans(spans: seq<string>): seq<string> {
    Filter(IsSerialSpan, spans)
  }

  /** `.replace('Serial Number:', '').trim().replace(/"/g, '')` */
  function CleanSerial(text: string): string {
    RemoveAll(Trim(RemoveFirst(text, SerialPrefix)), '"')
  }

  /** The serial number: taken from the second serial span, absent when
      there are fewer than two. */
  function SerialNumber(spans: seq<string>): (r: Option<string>)
    ensures r.Some? <==> |SerialSpans(spans)| >= 2
    ensures r.Some? ==> '"' !in r.value
  {
    var ss := SerialSpans(spans);
    if |ss| >= 2 then
      RemoveAllSpec(Trim(RemoveFirst(ss[1], SerialPrefix)), '"');
      Some(CleanSerial(ss[1]))
    else None
  }

  /** Spans the filter drops, up to position `i`, do not affect it. */
  lemma {:induction false} FilterSkip(keep: string -> bool, spans: seq<string>, i: nat)
    requires i <= |spans|
    requires forall k :: 0 <= k < i ==> !keep(spans[k])
    ensures Filter(keep, spans) == Filter(keep, spans[i..])
  {
    if i > 0 {
      assert spans[1..][i - 1..] == spans[i..];
      FilterSkip(keep, spans[1..], i - 1);
    }
  }

  /** The same for a run of dropped spans from `a` up to `b`. */
  lemma FilterSkipRange(keep: string -> bool, spans: seq<string>, a: nat, b: nat)
    requires a <= b <= |spans|
    requires forall k :: a <= k < b ==> !keep(spans[k])
    ensures Filter(keep, spans[a..]) == Filter(keep, spans[b..])
  {
    var rest := spans[a..];
    assert forall k :: 0 <= k < b - a ==> rest[k] == spans[a + k];
    FilterSkip(keep, rest, b - a);
    assert rest[b - a..] == spans[b..];
  }

  /** One step of the filter, at position `i`. */
  lemma FilterAt(keep: string -> bool, spans: seq<string>, i: nat)
    requires i < |spans|
    ensures Filter(keep, spans[i..])
      == (if keep(spans[i]) then [spans[i]] else []) + Filter(keep, spans[i + 1..])
  {
    assert spans[i..][1..] == spans[i + 1..];
  }

  /** When exactly the spans at `i` and `j` pass before `j`, they open the result. */
  lemma FilterSecond(keep: string -> bool, spans: seq<string>, i: nat, j: nat)
    requires i < j < |spans|
    requires keep(spans[i]) && keep(spans[j])
    requires forall k :: 0 <= k < j && k != i ==> !keep(spans[k])
    ensures var r := Filter(keep, spans); |r| >= 2 && r[1] == spans[j]
  {
    FilterSkip(keep, spans, i);
    FilterAt(keep, spans, i);
    FilterSkipRange(keep, spans, i + 1, j);
    FilterAt(keep, spans, j);
    assert Filter(keep, spans) == [spans[i]] + ([spans[j]] + Filter(keep, spans[j + 1..]));
  }

  /** When no span but the one at `i` passes, at most one comes out. */
  lemma FilterAtMostOne(keep: string -> bool, spans: seq<string>, i: nat)
    requires i <= |spans|
    requires forall k :: 0 <= k < |spans| && k != i ==> !keep(spans[k])
    ensures |Filter(keep, spans)| <= 1
  {
    if i < |spans| {
      FilterSkip(keep, spans, i);
      FilterAt(keep, spans, i);
      FilterSkipRange(keep, spans, i + 1, |spans|);
      assert spans[|spans|..] == [];
    } else {
      FilterSkip(keep, spans, |spans|);
      assert spans[|spans|..] == [];
    }
  }

  /** The serial comes from the span at the second matching position `j`
      (the first being `i`); every other span before it is irrelevant. */
  lemma SecondSerialSpanWins(spans: seq<string>, i: nat, j: nat)
    requires i < j < |spans|
    requires IsSerialSpan(spans[i]) && IsSerialSpan(spans[j])
    requires forall k :: 0 <= k < j && k != i ==> !IsSerialSpan(spans[k])
    ensures SerialNumber(spans) == Some(CleanSerial(spans[j]))
  {
    FilterSecond(IsSerialSpan, spans, i, j);
  }

  /** With at most one serial span there is no serial number. */
  lemma AtMostOneSerialSpan(spans: seq<string>, i: nat)
    requires i <= |spans|
    requires forall k :: 0 <= k < |spans| && k != i ==> !IsSerialSpan(spans[k])
    ensures SerialNumber(spans).None?
  {
    FilterAtMostOne(IsSerialSpan, spans, i);
  }

  /** Cleaning a serial span removes its `Serial Number:` label (the one after
      any leading whitespace, whatever follows), trims what is left and
      drops every double quote. */
  lemma CleanSerialDropsLabel(text: string)
    requires IsSerialSpan(text)
    ensures var t := TrimStart(text);
      |SerialPrefix| <= |t| && CleanSerial(text) == RemoveAll(Trim(t[|SerialPrefix|..]), '"')
  {
    TrimAfterLabel(text, SerialPrefix);
  }
}
