/**
 * The string operations of JavaScript that the validator relies on, written out over `seq<char>`:
 * `split` on one character, the `filter(p => p)` that drops empty parts, `trim`/`trimStart`,
 * `toLowerCase` (ASCII letters only), `includes`, `startsWith`, `endsWith`, `lastIndexOf`,
 * the word count `split(/\s+/).filter(w => w).length`, and decimal numerals for `parseInt`,
 * `toString` and `padStart`.
 */
module Text {

  /** JavaScript's `\s` class, which is also the set of characters `trim` removes. */
  predicate IsSpace(c: char) {
    c == '\t' || c == '\n' || c == '\U{000B}' || c == '\U{000C}' || c == '\r' || c == ' '
    || c == '\U{00A0}' || c == '\U{1680}' || ('\U{2000}' <= c <= '\U{200A}')
    || c == '\U{2028}' || c == '\U{2029}' || c == '\U{202F}' || c == '\U{205F}'
    || c == '\U{3000}' || c == '\U{FEFF}'
  }

  /** The characters a regular-expression `.` does not match (without the `s` flag). */
  predicate IsLineTerminator(c: char) {
    c == '\n' || c == '\r' || c == '\U{2028}' || c == '\U{2029}'
  }

  predicate IsDigit(c: char) { '0' <= c <= '9' }

  /** The regular-expression class `\w`. */
  predicate IsWordChar(c: char) {
    ('a' <= c <= 'z') || ('A' <= c <= 'Z') || IsDigit(c) || c == '_'
  }

  predicate NoLineTerminator(s: string) {
    forall i :: 0 <= i < |s| ==> !IsLineTerminator(s[i])
  }

  predicate AllDigits(s: string) {
    forall i :: 0 <= i < |s| ==> IsDigit(s[i])
  }

  // ---------------------------------------------------------------------------------------------
  // split / join

  /** `s.split(sep)` for a one-character separator: never empty, "" gives [""]. */
  function Split(s: string, sep: char): (r: seq<string>)
    ensures |r| >= 1
    ensures forall k :: 0 <= k < |r| ==> sep !in r[k]
    decreases |s|
  {
    if s == [] then [""]
    else if s[0] == sep then [""] + Split(s[1..], sep)
    else
      var rest := Split(s[1..], sep);
      assert sep !in [s[0]] + rest[0];
      [[s[0]] + rest[0]] + rest[1..]
  }

  /** `parts.join(sep)`. */
  function Join(parts: seq<string>, sep: string): string
  {
    if parts == [] then ""
    else if |parts| == 1 then parts[0]
    else parts[0] + sep + Join(parts[1..], sep)
  }

  /** `parts.filter(p => p)`: the empty parts are dropped, the others kept in order. */
  function NonEmptyParts(parts: seq<string>): (r: seq<string>)
    ensures forall k :: 0 <= k < |r| ==> r[k] != "" && r[k] in parts
    ensures forall k :: 0 <= k < |parts| && parts[k] != "" ==> parts[k] in r
  {
    if parts == [] then []
    else (if parts[0] == "" then [] else [parts[0]]) + NonEmptyParts(parts[1..])
  }

  /** `path.split('/').filter(p => p)`: the segments of a path; `a//b` and a trailing `/` add none. */
  function Segments(path: string): (r: seq<string>)
    ensures forall k :: 0 <= k < |r| ==> r[k] != "" && '/' !in r[k]
  {
    var parts := Split(path, '/');
    var r := NonEmptyParts(parts);
    assert forall k :: 0 <= k < |r| ==> r[k] in parts;
    r
  }

  lemma {:induction false} SplitNoSeparator(s: string, sep: char)
    requires sep !in s
    ensures Split(s, sep) == [s]
    decreases |s|
  {
    if s != [] {
      assert sep !in s[1..];
      SplitNoSeparator(s[1..], sep);
      assert [s[0]] + s[1..] == s;
    }
  }

  /** Splitting around one separator character splits the two sides independently. */
  lemma {:induction false} SplitConcat(a: string, sep: char, b: string)
    ensures Split(a + [sep] + b, sep) == Split(a, sep) + Split(b, sep)
    decreases |a|
  {
    if a == [] {
      assert [sep] + b == a + [sep] + b;
      assert ([sep] + b)[1..] == b;
    } else {
      assert (a + [sep] + b)[1..] == a[1..] + [sep] + b;
      SplitConcat(a[1..], sep, b);
    }
  }

  lemma {:induction false} NonEmptyPartsConcat(p: seq<string>, q: seq<string>)
    ensures NonEmptyParts(p + q) == NonEmptyParts(p) + NonEmptyParts(q)
    decreases |p|
  {
    if p != [] {
      assert (p + q)[0] == p[0] && (p + q)[1..] == p[1..] + q;
      var head := if p[0] == "" then [] else [p[0]];
      assert NonEmptyParts(p + q) == head + NonEmptyParts(p[1..] + q);
      assert NonEmptyParts(p) == head + NonEmptyParts(p[1..]);
      NonEmptyPartsConcat(p[1..], q);
    } else {
      assert p + q == q;
    }
  }

  /** A path built as `${a}/${b}` has the segments of `a` followed by those of `b`. */
  lemma SegmentsConcat(a: string, b: string)
    ensures Segments(a + "/" + b) == Segments(a) + Segments(b)
  {
    SplitConcat(a, '/', b);
    NonEmptyPartsConcat(Split(a, '/'), Split(b, '/'));
  }

  /** A non-empty name without `/` is a single segment. */
  lemma SegmentsOfName(name: string)
    requires name != "" && '/' !in name
    ensures Segments(name) == [name]
  {
    SplitNoSeparator(name, '/');
    assert [name][1..] == [];
    assert NonEmptyParts([name]) == [name] + NonEmptyParts([]);
  }

  lemma SegmentsOfEmpty()
    ensures Segments("") == []
  {
  }

  /** Joining segments with `/` and splitting again gives the segments back. */
  lemma {:induction false} SegmentsOfJoin(parts: seq<string>)
    requires forall k :: 0 <= k < |parts| ==> parts[k] != "" && '/' !in parts[k]
    ensures Segments(Join(parts, "/")) == parts
    decreases |parts|
  {
    if parts == [] {
    } else if |parts| == 1 {
      SegmentsOfName(parts[0]);
    } else {
      SegmentsOfJoin(parts[1..]);
      SegmentsConcat(parts[0], Join(parts[1..], "/"));
      SegmentsOfName(parts[0]);
      assert parts == [parts[0]] + parts[1..];
    }
  }

  /** `s.replace(/\/+/g, '/')`: every run of slashes becomes one slash. */
  function CollapseSlashes(s: string): (r: string)
    ensures |r| <= |s|
  {
    if s == [] then []
    else if |s| >= 2 && s[0] == '/' && s[1] == '/' then CollapseSlashes(s[1..])
    else [s[0]] + CollapseSlashes(s[1..])
  }

  /** Collapsing slashes keeps the first part of a split and the non-empty parts after it. */
  lemma {:induction false} CollapseSlashesParts(s: string)
    ensures Split(CollapseSlashes(s), '/')[0] == Split(s, '/')[0]
    ensures NonEmptyParts(Split(CollapseSlashes(s), '/')[1..]) == NonEmptyParts(Split(s, '/')[1..])
    decreases |s|
  {
    if s == [] {
    } else if |s| >= 2 && s[0] == '/' && s[1] == '/' {
      CollapseSlashesParts(s[1..]);
      assert Split(s, '/') == [""] + Split(s[1..], '/');
      assert Split(s[1..], '/') == [""] + Split(s[2..], '/');
      assert s[1..][1..] == s[2..];
    } else {
      CollapseSlashesParts(s[1..]);
      var c := CollapseSlashes(s[1..]);
      assert CollapseSlashes(s) == [s[0]] + c;
      assert ([s[0]] + c)[1..] == c;
      var p, q := Split(c, '/'), Split(s[1..], '/');
      if s[0] == '/' {
        assert p == [p[0]] + p[1..] && q == [q[0]] + q[1..];
        NonEmptyPartsConcat([p[0]], p[1..]);
        NonEmptyPartsConcat([q[0]], q[1..]);
      }
    }
  }

  /** Collapsing runs of slashes does not change the segments of a path. */
  lemma SegmentsOfCollapsed(s: string)
    ensures Segments(CollapseSlashes(s)) == Segments(s)
  {
    CollapseSlashesParts(s);
    var p, q := Split(CollapseSlashes(s), '/'), Split(s, '/');
    assert p == [p[0]] + p[1..] && q == [q[0]] + q[1..];
    NonEmptyPartsConcat([p[0]], p[1..]);
    NonEmptyPartsConcat([q[0]], q[1..]);
  }

  // ---------------------------------------------------------------------------------------------
  // prefixes, suffixes, search

  predicate StartsWith(s: string, prefix: string) {
    |prefix| <= |s| && s[..|prefix|] == prefix
  }

  predicate EndsWith(s: string, suffix: string) {
    |suffix| <= |s| && s[|s| - |suffix|..] == suffix
  }

  predicate OccursAt(s: string, sub: string, i: nat) {
    i + |sub| <= |s| && s[i..i + |sub|] == sub
  }

  /** The first index at or after `from` where `sub` occurs, or -1. */
  function IndexOfFrom(s: string, sub: string, from: nat): (r: int)
    ensures r == -1 || (from <= r && OccursAt(s, sub, r))
    ensures r == -1 ==> forall i :: from <= i ==> !OccursAt(s, sub, i)
    ensures r != -1 ==> forall i :: from <= i < r ==> !OccursAt(s, sub, i)
    decreases |s| - from
  {
    if from + |sub| > |s| then -1
    else if s[from..from + |sub|] == sub then from
    else IndexOfFrom(s, sub, from + 1)
  }

  /** `s.includes(sub)`. */
  predicate Contains(s: string, sub: string) {
    IndexOfFrom(s, sub, 0) >= 0
  }

  lemma ContainsAt(s: string, sub: string, i: nat)
    requires OccursAt(s, sub, i)
    ensures Contains(s, sub)
  {
  }

  /** `s.lastIndexOf(c)`: the last index holding `c`, or -1. */
  function LastIndexOf(s: string, c: char): (r: int)
    ensures -1 <= r < |s|
    ensures r >= 0 ==> s[r] == c && forall i :: r < i < |s| ==> s[i] != c
    ensures r == -1 ==> c !in s
  {
    if s == [] then -1
    else if s[|s| - 1] == c then |s| - 1
    else LastIndexOf(s[..|s| - 1], c)
  }

  /** `s.substring(s.lastIndexOf('.'))`: from the last dot on, or the whole string when there is none. */
  function FromLastDot(s: string): (r: string)
    ensures EndsWith(s, r)
    ensures '.' in s ==> r != [] && r[0] == '.' && '.' !in r[1..]
  {
    var i := LastIndexOf(s, '.');
    var r := if i < 0 then s else s[i..];
    assert '.' in s ==> r[1..] == s[i + 1..];
    r
  }

  // ---------------------------------------------------------------------------------------------
  // case and white space

  /** The lower case of one character: ASCII letters, and the Kelvin sign, the one other character whose lower case is ASCII. */
  function LowerChar(c: char): char {
    if 'A' <= c <= 'Z' then (c as int + 32) as char
    else if c == '\U{212A}' then 'k'
    else c
  }

  /** `s.toLowerCase()`, character by character. */
  function Lower(s: string): (r: string)
    ensures |r| == |s|
    ensures forall i :: 0 <= i < |s| ==> r[i] == LowerChar(s[i])
  {
    if s == [] then [] else [LowerChar(s[0])] + Lower(s[1..])
  }

  /** `s.trimStart()`. */
  function TrimStart(s: string): (r: string)
    ensures EndsWith(s, r)
    ensures r == [] || !IsSpace(r[0])
    ensures forall i :: 0 <= i < |s| - |r| ==> IsSpace(s[i])
  {
    if s != [] && IsSpace(s[0]) then TrimStart(s[1..]) else s
  }

  /** `s.trimEnd()`. */
  function TrimEnd(s: string): (r: string)
    ensures StartsWith(s, r)
    ensures r == [] || !IsSpace(r[|r| - 1])
    ensures forall i :: |r| <= i < |s| ==> IsSpace(s[i])
  {
    if s != [] && IsSpace(s[|s| - 1]) then TrimEnd(s[..|s| - 1]) else s
  }

  /** `s.trim()`. */
  function Trim(s: string): string {
    TrimEnd(TrimStart(s))
  }

  predicate IsBlank(s: string) {
    forall i :: 0 <= i < |s| ==> IsSpace(s[i])
  }

  /** A string trims to "" exactly when it is all white space. */
  lemma TrimEmptyIffBlank(s: string)
    ensures Trim(s) == "" <==> IsBlank(s)
  {
  }

  /** The leading characters that are not white space. */
  function SkipWord(s: string): (r: string)
    ensures |r| < |s| || s == [] || IsSpace(s[0])
    ensures |r| <= |s|
  {
    if s != [] && !IsSpace(s[0]) then SkipWord(s[1..]) else s
  }

  /** `s.split(/\s+/).filter(w => w).length`: the number of maximal runs of non-white-space. */
  function WordCount(s: string): nat
    decreases |s|
  {
    if s == [] then 0
    else if IsSpace(s[0]) then WordCount(s[1..])
    else 1 + WordCount(SkipWord(s))
  }

  /** A word count bounds the length: each word needs at least one character. */
  lemma {:induction false} WordCountBound(s: string)
    ensures WordCount(s) <= |s|
    decreases |s|
  {
    if s != [] {
      if IsSpace(s[0]) {
        WordCountBound(s[1..]);
      } else {
        WordCountBound(SkipWord(s));
      }
    }
  }

  // ---------------------------------------------------------------------------------------------
  // decimal numerals

  /** The value of a string of decimal digits, as `parseInt` gives it. */
  function DigitsValue(ds: string): nat
    requires AllDigits(ds)
  {
    if ds == [] then 0
    else DigitsValue(ds[..|ds| - 1]) * 10 + (ds[|ds| - 1] as int - '0' as int)
  }

  /** `n.toString()` for a non-negative integer. */
  function NatToString(n: nat): (r: string)
    ensures r != [] && AllDigits(r)
    ensures DigitsValue(r) == n
  {
    if n < 10 then [(n + '0' as int) as char]
    else
      var prefix := NatToString(n / 10);
      var r := prefix + [(n % 10 + '0' as int) as char];
      assert r[..|r| - 1] == prefix;
      r
  }

  /** `n.toString()` for an integer. */
  function IntToString(n: int): string {
    if n < 0 then "-" + NatToString(-n) else NatToString(n)
  }

  /** `s.padStart(width, '0')`. */
  function PadZero(s: string, width: nat): (r: string)
    ensures |r| == if |s| < width then width else |s|
    ensures EndsWith(r, s)
    decreases width - |s|
  {
    if |s| < width then PadZero("0" + s, width) else s
  }

  /** The maximal run of decimal digits starting at `i`: where a greedy `\d+` stops. */
  function DigitRunEnd(s: string, i: nat): (r: nat)
    requires i <= |s|
    ensures i <= r <= |s|
    ensures forall k :: i <= k < r ==> IsDigit(s[k])
    ensures r == |s| || !IsDigit(s[r])
    decreases |s| - i
  {
    if i < |s| && IsDigit(s[i]) then DigitRunEnd(s, i + 1) else i
  }

  /** A digit run is stopped by the first non-digit, wherever the run sits in a larger text. */
  lemma DigitRunEndAt(s: string, i: nat, j: nat)
    requires i <= j <= |s|
    requires forall k :: i <= k < j ==> IsDigit(s[k])
    requires j == |s| || !IsDigit(s[j])
    ensures DigitRunEnd(s, i) == j
  {
  }

  function Pow10(n: nat): (r: nat)
    ensures r >= 1
  {
    if n == 0 then 1 else 10 * Pow10(n - 1)
  }

  /** A JavaScript number: NaN or a finite value (floating-point rounding is not modelled). */
  datatype Num = NaN | Real(value: real)

  /**
   * `parseFloat` on a text made of digits and dots: the longest prefix of the form `d*`, `d*.d*`
   * with at least one digit is read; a text that starts with no such prefix is NaN.
   */
  function ParseDecimal(t: string): (r: Num)
    ensures t != [] && IsDigit(t[0]) ==> r.Real?
    ensures AllDigits(t) && t != [] ==> r == Real(DigitsValue(t) as real)
  {
    var d1 := DigitRunEnd(t, 0);
    assert AllDigits(t[..d1]);
    var whole := DigitsValue(t[..d1]) as real;
    if d1 < |t| && t[d1] == '.' then
      var d2 := DigitRunEnd(t, d1 + 1);
      assert AllDigits(t[d1 + 1..d2]);
      if d1 == 0 && d2 == d1 + 1 then NaN
      else Real(whole + DigitsValue(t[d1 + 1..d2]) as real / Pow10(d2 - d1 - 1) as real)
    else if d1 == 0 then NaN
    else
      assert AllDigits(t) ==> t[..d1] == t;
      Real(whole)
  }
}
