/** String operations of the JavaScript runtime that the scripts rely on:
    `trim`, `\s`, `\d`, `toUpperCase`, `startsWith`, `replace`, string
    comparison, `parseInt` and `String(n).padStart(2, '0')`. */
module Text {

  import opened Options

  /** The characters JavaScript's `trim` removes and `\s` matches:
      WhiteSpace and LineTerminator of ECMAScript. */
  predicate IsSpace(c: char) {
    || c == ' ' || c == '\t' || c == '\n' || c == '\U{000B}' || c == '\U{000C}' || c == '\r'
    || c == '\U{00A0}' || c == '\U{1680}' || ('\U{2000}' <= c <= '\U{200A}')
    || c == '\U{2028}' || c == '\U{2029}' || c == '\U{202F}' || c == '\U{205F}'
    || c == '\U{3000}' || c == '\U{FEFF}'
  }

  predicate AllSpace(s: string) {
    forall i :: 0 <= i < |s| ==> IsSpace(s[i])
  }

  predicate NoSpace(s: string) {
    forall i :: 0 <= i < |s| ==> !IsSpace(s[i])
  }

  /** `\d` in a JavaScript regular expression: ASCII decimal digits only. */
  predicate IsDigit(c: char) {
    '0' <= c <= '9'
  }

  /** `/^\d+$/.test(s)`. */
  predicate IsDigits(s: string) {
    |s| > 0 && forall i :: 0 <= i < |s| ==> IsDigit(s[i])
  }

  predicate HasDigit(s: string) {
    exists i :: 0 <= i < |s| && IsDigit(s[i])
  }

  /** Removes leading whitespace. */
  function TrimStart(s: string): (r: string)
    ensures |r| <= |s| && r == s[|s| - |r|..]
    ensures AllSpace(s[..|s| - |r|])
    ensures r != [] ==> !IsSpace(r[0])
  {
    if s != [] && IsSpace(s[0]) then
      var r := TrimStart(s[1..]);
      assert s[1..][|s| - 1 - |r|..] == s[|s| - |r|..];
      assert forall i :: 0 < i < |s| - |r| ==> s[i] == s[1..][..|s| - 1 - |r|][i - 1];
      r
    else s
  }

  /** Removes trailing whitespace. */
  function TrimEnd(s: string): (r: string)
    ensures |r| <= |s| && r == s[..|r|]
    ensures AllSpace(s[|r|..])
    ensures r != [] ==> !IsSpace(r[|r| - 1])
  {
    if s != [] && IsSpace(s[|s| - 1]) then
      var r := TrimEnd(s[..|s| - 1]);
      assert s[..|s| - 1][..|r|] == s[..|r|];
      assert forall i :: |r| <= i < |s| - 1 ==> s[i] == s[..|s| - 1][|r|..][i - |r|];
      r
    else s
  }

  /** `String.prototype.trim`. */
  function Trim(s: string): (r: string)
  {
    TrimEnd(TrimStart(s))
  }

  /** The trimmed text neither starts nor ends with whitespace, and it is
      empty exactly when the input is all whitespace. */
  lemma TrimSpec(s: string)
    ensures Trim(s) != [] ==> !IsSpace(Trim(s)[0]) && !IsSpace(Trim(s)[|Trim(s)| - 1])
    ensures Trim(s) == [] <==> AllSpace(s)
  {
    var t := TrimStart(s);
    var i := |s| - |t|;
    if Trim(s) == [] {
      assert AllSpace(t[0..]);
      assert s[..i] == s;
    }
  }

  /** Trimming never leaves whitespace at either end, so it is idempotent. */
  lemma {:induction false} TrimIdempotent(s: string)
    ensures Trim(Trim(s)) == Trim(s)
  {
    var r := Trim(s);
    TrimSpec(s);
    if r != [] {
      assert TrimStart(r) == r;
      assert TrimEnd(r) == r;
    }
  }

  /** Whitespace in front of a text does not survive `trim`. */
  lemma {:induction false} TrimDropsLeadingSpace(ws: string, x: string)
    requires AllSpace(ws)
    ensures Trim(ws + x) == Trim(x)
  {
    if ws != [] {
      assert (ws + x)[1..] == ws[1..] + x;
      TrimDropsLeadingSpace(ws[1..], x);
    } else {
      assert ws + x == x;
    }
  }

  /** `s.startsWith(p)` */
  predicate StartsWith(s: string, p: string) {
    p == [] || (s != [] && s[0] == p[0] && StartsWith(s[1..], p[1..]))
  }

  lemma {:induction false} StartsWithLength(s: string, p: string)
    requires StartsWith(s, p)
    ensures |p| <= |s| && s[..|p|] == p
  {
    if p != [] {
      StartsWithLength(s[1..], p[1..]);
      assert s[..|p|] == [s[0]] + s[1..][..|p| - 1];
    }
  }

  /** A string starts with `p` when a prefix of it does. */
  lemma {:induction false} StartsWithExtend(x: string, y: string, p: string)
    requires StartsWith(x, p) && |x| <= |y| && x == y[..|x|]
    ensures StartsWith(y, p)
  {
    if p != [] {
      assert x[1..] == y[1..][..|x| - 1];
      StartsWithExtend(x[1..], y[1..], p[1..]);
    }
  }

  /** The position of the first occurrence of `p`, as `indexOf` finds it. */
  function IndexOf(s: string, p: string): (r: Option<nat>)
    requires p != []
    ensures r.Some? ==> r.value + |p| <= |s|
  {
    if |s| < |p| then None
    else if StartsWith(s, p) then Some(0)
    else
      var q := IndexOf(s[1..], p);
      if q.Some? then Some(q.value + 1) else None
  }

  /** `IndexOf` finds an occurrence, and no occurrence starts earlier. */
  lemma {:induction false} IndexOfSpec(s: string, p: string)
    requires p != []
    ensures var r := IndexOf(s, p);
      && (r.Some? ==> StartsWith(s[r.value..], p))
      && (forall i :: 0 <= i < (if r.Some? then r.value else |s|) ==> !StartsWith(s[i..], p))
  {
    if |s| < |p| {
      forall i | 0 <= i < |s| ensures !StartsWith(s[i..], p) {
        if StartsWith(s[i..], p) {
          StartsWithLength(s[i..], p);
        }
      }
    } else if !StartsWith(s, p) {
      IndexOfSpec(s[1..], p);
      assert forall i :: 1 <= i <= |s| ==> s[i..] == s[1..][i - 1..];
    }
  }

  /** `s.replace(p, '')` with a string pattern: only the first occurrence
      is removed. */
  function RemoveFirst(s: string, p: string): (r: string)
    requires p != []
  {
    match IndexOf(s, p)
    case None => s
    case Some(i) => s[..i] + s[i + |p|..]
  }

  /** `IndexOf` finds the first occurrence wherever it is. */
  lemma {:induction false} IndexOfFirst(s: string, p: string, k: nat)
    requires p != [] && k <= |s|
    requires StartsWith(s[k..], p)
    requires forall i :: 0 <= i < k ==> !StartsWith(s[i..], p)
    ensures IndexOf(s, p) == Some(k)
  {
    StartsWithLength(s[k..], p);
    if k > 0 {
      assert s[0..] == s;
      assert forall i :: 1 <= i <= |s| ==> s[i..] == s[1..][i - 1..];
      IndexOfFirst(s[1..], p, k - 1);
    } else {
      assert s[0..] == s;
    }
  }

  /** When the trimmed text starts with `p` and `p` does not start with
      whitespace, the first occurrence of `p` is the one right after the
      leading whitespace: removing it leaves that whitespace and the rest. */
  lemma RemoveFirstAfterSpace(s: string, p: string)
    requires p != [] && !IsSpace(p[0])
    requires StartsWith(TrimStart(s), p)
    ensures var t := TrimStart(s);
      |p| <= |t| && RemoveFirst(s, p) == s[..|s| - |t|] + t[|p|..]
  {
    var t := TrimStart(s);
    var k := |s| - |t|;
    StartsWithLength(t, p);
    assert s[k..] == t;
    NoMatchInSpace(s, p, k);
    IndexOfFirst(s, p, k);
    assert RemoveFirst(s, p) == s[..k] + s[k + |p|..];
    assert s[k + |p|..] == t[|p|..];
  }

  /** A pattern that does not start with whitespace does not occur inside
      a run of leading whitespace. */
  lemma NoMatchInSpace(s: string, p: string, k: nat)
    requires p != [] && !IsSpace(p[0])
    requires k <= |s| && AllSpace(s[..k])
    ensures forall i :: 0 <= i < k ==> !StartsWith(s[i..], p)
  {
    forall i | 0 <= i < k ensures !StartsWith(s[i..], p) {
      assert s[..k][i] == s[i];
      if StartsWith(s[i..], p) {
        StartsWithHead(s[i..], p);
      }
    }
  }

  /** Removing a label that the trimmed text starts with, then trimming,
      leaves the trimmed text after the label. */
  lemma TrimAfterLabel(s: string, p: string)
    requires p != [] && !IsSpace(p[0])
    requires StartsWith(Trim(s), p)
    ensures var t := TrimStart(s);
      |p| <= |t| && Trim(RemoveFirst(s, p)) == Trim(t[|p|..])
  {
    var t := TrimStart(s);
    StartsWithExtend(TrimEnd(t), t, p);
    RemoveFirstAfterSpace(s, p);
    var k := |s| - |t|;
    var rest := t[|p|..];
    assert RemoveFirst(s, p) == s[..k] + rest;
    TrimDropsLeadingSpace(s[..k], rest);
  }

  lemma StartsWithHead(x: string, p: string)
    requires p != [] && StartsWith(x, p)
    ensures x[0] == p[0]
  {
  }

  /** `s.replace(/x/g, '')`: every occurrence of the character removed. */
  function RemoveAll(s: string, x: char): (r: string)
    ensures |r| <= |s|
  {
    if s == [] then []
    else (if s[0] == x then [] else [s[0]]) + RemoveAll(s[1..], x)
  }

  /** No `x` is left, and a text without `x` is unchanged. */
  lemma {:induction false} RemoveAllSpec(s: string, x: char)
    ensures x !in RemoveAll(s, x)
    ensures x !in s ==> RemoveAll(s, x) == s
  {
    if s != [] {
      RemoveAllSpec(s[1..], x);
    }
  }

  /** Removing from a concatenation removes from each part in turn. */
  lemma {:induction false} RemoveAllAppend(a: string, b: string, x: char)
    ensures RemoveAll(a + b, x) == RemoveAll(a, x) + RemoveAll(b, x)
  {
    if a != [] {
      assert (a + b)[1..] == a[1..] + b;
      RemoveAllAppend(a[1..], b, x);
    } else {
      assert a + b == b;
    }
  }

  /** A single character is dropped exactly when it is `x`; with
      `RemoveAllAppend`, every other character stays, in order. */
  lemma RemoveAllChar(c: char, x: char)
    ensures RemoveAll([c], x) == if c == x then [] else [c]
  {
    assert [c][1..] == [];
  }

  /** The text before the first `c`: `s.split(c)[0]`. */
  function BeforeFirst(s: string, c: char): (r: string)
    ensures c !in r
    ensures |r| <= |s| && r == s[..|r|]
    ensures |r| == |s| || s[|r|] == c
  {
    if s == [] || s[0] == c then [] else [s[0]] + BeforeFirst(s[1..], c)
  }

  /** `toUpperCase` on ASCII letters. */
  function UpperChar(c: char): char {
    if 'a' <= c <= 'z' then (c as int - 32) as char else c
  }

  predicate IsLowerAscii(c: char) {
    'a' <= c <= 'z'
  }

  function ToUpper(s: string): (r: string)
    ensures |r| == |s|
    ensures forall i :: 0 <= i < |s| ==> r[i] == UpperChar(s[i])
  {
    if s == [] then [] else [UpperChar(s[0])] + ToUpper(s[1..])
  }

  /** `s.replace(/\s+/g, '_')`: every maximal run of whitespace becomes one
      underscore. */
  function ReplaceSpaceRuns(s: string): (r: string)
    ensures NoSpace(r)
    ensures NoSpace(s) ==> r == s
    decreases |s|
  {
    if s == [] then []
    else if IsSpace(s[0]) then "_" + ReplaceSpaceRuns(TrimStart(s))
    else [s[0]] + ReplaceSpaceRuns(s[1..])
  }

  /** Replacing runs keeps every non-space character and adds only `_`. */
  lemma {:induction false} ReplaceSpaceRunsChars(s: string, c: char)
    requires c in ReplaceSpaceRuns(s)
    ensures c in s || c == '_'
    decreases |s|
  {
    if s == [] {
    } else if IsSpace(s[0]) {
      var t := TrimStart(s);
      if c != '_' {
        ReplaceSpaceRunsChars(t, c);
        assert t == s[|s| - |t|..];
      }
    } else {
      if c != s[0] {
        ReplaceSpaceRunsChars(s[1..], c);
      }
    }
  }

  /** Leading whitespace up to a non-space character is all `TrimStart` drops. */
  lemma {:induction false} TrimStartSpace(w: string, b: string)
    requires AllSpace(w) && (b == [] || !IsSpace(b[0]))
    ensures TrimStart(w + b) == b
  {
    if w != [] {
      assert (w + b)[0] == w[0];
      assert (w + b)[1..] == w[1..] + b;
      TrimStartSpace(w[1..], b);
    } else {
      assert w + b == b;
    }
  }

  /** A maximal run of whitespace becomes exactly one `_`. */
  lemma ReplaceSpaceRunsRun(w: string, b: string)
    requires w != [] && AllSpace(w) && (b == [] || !IsSpace(b[0]))
    ensures ReplaceSpaceRuns(w + b) == "_" + ReplaceSpaceRuns(b)
  {
    assert (w + b)[0] == w[0];
    TrimStartSpace(w, b);
  }

  /** A character that is not whitespace is kept as it is. */
  lemma ReplaceSpaceRunsKeep(c: char, b: string)
    requires !IsSpace(c)
    ensures ReplaceSpaceRuns([c] + b) == [c] + ReplaceSpaceRuns(b)
  {
    assert ([c] + b)[1..] == b;
  }

  lemma ReplaceSpaceRunsEmpty(s: string)
    ensures ReplaceSpaceRuns(s) == [] <==> s == []
  {
  }

  /** Lexicographic order of strings, as JavaScript's `<` compares them:
      a proper prefix is smaller. */
  predicate StrLt(a: string, b: string)
    decreases |a|
  {
    if a == [] then b != []
    else if b == [] then false
    else if a[0] != b[0] then a[0] < b[0]
    else StrLt(a[1..], b[1..])
  }

  lemma {:induction false} StrLtIrreflexive(a: string)
    ensures !StrLt(a, a)
    decreases |a|
  {
    if a != [] { StrLtIrreflexive(a[1..]); }
  }

  lemma {:induction false} StrLtTransitive(a: string, b: string, c: string)
    requires StrLt(a, b) && StrLt(b, c)
    ensures StrLt(a, c)
    decreases |a|
  {
    if a != [] && b != [] && c != [] && a[0] == b[0] && b[0] == c[0] {
      StrLtTransitive(a[1..], b[1..], c[1..]);
    }
  }

  lemma {:induction false} StrLtTotal(a: string, b: string)
    requires a != b
    ensures StrLt(a, b) || StrLt(b, a)
    decreases |a|
  {
    if a != [] && b != [] && a[0] == b[0] {
      assert a == [a[0]] + a[1..] && b == [b[0]] + b[1..];
      StrLtTotal(a[1..], b[1..]);
    }
  }

  lemma {:induction false} StrLtAsymmetric(a: string, b: string)
    requires StrLt(a, b)
    ensures !StrLt(b, a)
    decreases |a|
  {
    if a != [] && b != [] && a[0] == b[0] {
      StrLtAsymmetric(a[1..], b[1..]);
    }
  }

  /** Strings strictly increasing in the order above: sorted without duplicates. */
  predicate StrictlySorted(s: seq<string>) {
    forall i, j :: 0 <= i < j < |s| ==> StrLt(s[i], s[j])
  }

  /** Inserts `x` at its place in a strictly sorted sequence, unless it is
      already there. */
  function Insert(s: seq<string>, x: string): (r: seq<string>)
    requires StrictlySorted(s)
    ensures StrictlySorted(r)
    ensures forall y :: y in r <==> y in s || y == x
  {
    if s == [] then [x]
    else if x == s[0] then s
    else if StrLt(x, s[0]) then
      assert forall j :: 0 <= j < |s| ==> StrLt(x, s[j]) by {
        forall j | 0 <= j < |s| ensures StrLt(x, s[j]) {
          if j > 0 { StrLtTransitive(x, s[0], s[j]); }
        }
      }
      [x] + s
    else
      StrLtTotal(x, s[0]);
      var t := Insert(s[1..], x);
      assert forall y :: y in t ==> StrLt(s[0], y);
      [s[0]] + t
  }

  /** Two strictly sorted sequences with the same elements are equal. */
  lemma {:induction false} StrictlySortedUnique(a: seq<string>, b: seq<string>)
    requires StrictlySorted(a) && StrictlySorted(b)
    requires forall y :: y in a <==> y in b
    ensures a == b
    decreases |a|
  {
    if a != [] && b != [] {
      if a[0] != b[0] {
        assert b[0] in a;
        assert a[0] in b;
        var i :| 0 <= i < |a| && a[i] == b[0];
        var j :| 0 <= j < |b| && b[j] == a[0];
        assert i > 0 && j > 0;
        StrLtAsymmetric(a[0], a[i]);
        assert false;
      }
      forall y ensures y in a[1..] <==> y in b[1..] {
        if y in a[1..] {
          var i :| 1 <= i < |a| && a[i] == y;
          StrLtIrreflexive(a[0]);
          assert y != a[0] by { assert StrLt(a[0], a[i]); }
          assert y in b;
        }
        if y in b[1..] {
          var j :| 1 <= j < |b| && b[j] == y;
          StrLtIrreflexive(b[0]);
          assert y != b[0] by { assert StrLt(b[0], b[j]); }
          assert y in a;
        }
      }
      StrictlySortedUnique(a[1..], b[1..]);
      assert a == [a[0]] + a[1..] && b == [b[0]] + b[1..];
    } else if a != [] {
      HeadIn(a);
    } else if b != [] {
      HeadIn(b);
    }
  }

  lemma HeadIn(a: seq<string>)
    requires a != []
    ensures a[0] in a
  {
  }

  function DigitValue(c: char): nat
    requires IsDigit(c)
  {
    c as int - '0' as int
  }

  function DigitChar(d: nat): (c: char)
    requires d < 10
    ensures IsDigit(c) && DigitValue(c) == d
  {
    ('0' as int + d) as char
  }

  /** `parseInt` of a string of decimal digits. */
  function DecValue(s: string): nat
    requires forall i :: 0 <= i < |s| ==> IsDigit(s[i])
  {
    if s == [] then 0 else DecValue(s[..|s| - 1]) * 10 + DigitValue(s[|s| - 1])
  }

  /** `String(n)` for a natural number. */
  function NatToString(n: nat): (r: string)
    ensures IsDigits(r)
    ensures n < 10 ==> |r| == 1
    ensures 10 <= n < 100 ==> |r| == 2
    ensures 1000 <= n < 10000 ==> |r| == 4
  {
    if n < 10 then [DigitChar(n)] else NatToString(n / 10) + [DigitChar(n % 10)]
  }

  /** Reading back the decimal text of a number gives the number. */
  lemma {:induction false} NatToStringRoundTrip(n: nat)
    ensures DecValue(NatToString(n)) == n
  {
    if n >= 10 {
      var s := NatToString(n);
      assert s[..|s| - 1] == NatToString(n / 10);
      NatToStringRoundTrip(n / 10);
    }
  }

  /** `String(n)` for any integer (JavaScript writes a leading `-`). */
  function IntToString(n: int): string {
    if n < 0 then "-" + NatToString(-n) else NatToString(n)
  }

  /** `s.padStart(2, '0')`. */
  function Pad2(s: string): (r: string)
    ensures |r| == if |s| < 2 then 2 else |s|
    ensures r[|r| - |s|..] == s
    ensures forall i :: 0 <= i < |r| - |s| ==> r[i] == '0'
  {
    if |s| == 0 then "00" else if |s| == 1 then "0" + s else s
  }
}
