/**
 * What the action parser recognises: the calls a recorder writes are read back with their
 * arguments, and a string naming no pyautogui call is at most a sleep.
 */
module ActionFacts {
  import opened Wrappers
  import opened Text
  import opened Actions

  // ---------------------------------------------------------------------------------------------
  // the scanning helpers stop where expected

  lemma SkipSpacesAt(s: string, i: nat, j: nat)
    requires i <= j <= |s|
    requires forall k :: i <= k < j ==> IsSpace(s[k])
    requires j == |s| || !IsSpace(s[j])
    ensures SkipSpaces(s, i) == j
  {
  }

  lemma {:induction false} LazyUntilStops(s: string, start: nat, k: nat, closes: (string, nat) -> bool, e: nat)
    requires start < k <= e < |s| && closes(s, e)
    requires forall m :: k <= m < e ==> !closes(s, m) && !IsLineTerminator(s[m])
    ensures LazyUntil(s, start, k, closes) == Some(e)
    decreases e - k
  {
    if k < e {
      LazyUntilStops(s, start, k + 1, closes, e);
    }
  }

  lemma {:induction false} WriteCloseStops(s: string, a: nat, k: nat, e: nat)
    requires a < |s| && a + 2 <= k <= e < |s|
    requires s[e] == s[a] && WriteTail(s, e + 1)
    requires forall m :: k <= m < e ==> s[m] != s[a]
    ensures WriteClose(s, a, k) == Some(e)
    decreases e - k
  {
    if k < e {
      WriteCloseStops(s, a, k + 1, e);
    }
  }

  lemma FirstMatchAtStart(s: string, at: (string, nat) -> Option<Captures>)
    requires at(s, 0).Some?
    ensures FirstMatch(s, 0, at) == at(s, 0)
  {
  }

  lemma FirstMatchNowhere(s: string, at: (string, nat) -> Option<Captures>)
    requires forall j :: 0 <= j <= |s| ==> at(s, j).None?
    ensures FirstMatch(s, 0, at).None?
  {
  }

  /** Where no `pg.` or `pyautogui.` prefix starts, none of the pyautogui patterns can match. */
  lemma NoPrefixNoCall(s: string, i: nat)
    requires PrefixEnd(s, i).None?
    ensures ClickAt(s, i).None? && MouseDownAt(s, i).None? && MoveToAt(s, i).None? && MouseUpAt(s, i).None?
    ensures PressAt(s, i).None? && HotkeyAt(s, i).None? && WriteAt(s, i).None? && TypewriteAt(s, i).None?
    ensures ScrollAt(s, i).None?
  {
  }

  /** A string in which neither `pg.` nor `pyautogui.` occurs is parsed as a sleep or not at all. */
  lemma WithoutPrefixAtMostSleep(s: string)
    requires forall i :: 0 <= i <= |s| ==> !OccursAt(s, PgDot, i) && !OccursAt(s, PyautoguiDot, i)
    ensures ParsePyautoguiAction(s).actionType == Unknown || ParsePyautoguiAction(s).actionType == Sleep
    ensures ParsePyautoguiAction(s).actionType == Sleep <==> s != "" && FirstMatch(s, 0, SleepAt).Some?
  {
    forall i | 0 <= i <= |s|
      ensures ClickAt(s, i).None? && MouseDownAt(s, i).None? && MoveToAt(s, i).None? && MouseUpAt(s, i).None?
      ensures PressAt(s, i).None? && HotkeyAt(s, i).None? && WriteAt(s, i).None? && TypewriteAt(s, i).None?
      ensures ScrollAt(s, i).None?
    {
      NoPrefixNoCall(s, i);
    }
    FirstMatchNowhere(s, ClickAt);
    FirstMatchNowhere(s, MouseDownAt);
    FirstMatchNowhere(s, MoveToAt);
    FirstMatchNowhere(s, MouseUpAt);
    FirstMatchNowhere(s, PressAt);
    FirstMatchNowhere(s, HotkeyAt);
    FirstMatchNowhere(s, WriteAt);
    FirstMatchNowhere(s, TypewriteAt);
    FirstMatchNowhere(s, ScrollAt);
  }

  // ---------------------------------------------------------------------------------------------
  // calls written the way the recorder writes them

  lemma OccursChars(s: string, sub: string, i: nat)
    ensures OccursAt(s, sub, i) ==> forall k :: 0 <= k < |sub| ==> s[i + k] == sub[k]
  {
    if OccursAt(s, sub, i) {
      forall k | 0 <= k < |sub| ensures s[i + k] == sub[k] {
        assert s[i..i + |sub|][k] == s[i + k];
      }
    }
  }

  lemma OccursFromChars(s: string, sub: string, i: nat)
    requires i + |sub| <= |s| && forall k :: 0 <= k < |sub| ==> s[i + k] == sub[k]
    ensures OccursAt(s, sub, i)
  {
    assert s[i..i + |sub|] == sub;
  }

  /** Past its first letter, `pyautogui.` holds no `p`, and its only dot is its last character. */
  lemma PrefixLetters(s: string)
    requires StartsWith(s, PyautoguiDot)
    ensures s[0] == 'p' && s[1] == 'y' && s[9] == '.'
    ensures forall j :: 1 <= j < 10 ==> s[j] != 'p'
    ensures forall j :: 0 <= j < 9 ==> s[j] != '.'
  {
    assert PyautoguiDot == ['p', 'y', 'a', 'u', 't', 'o', 'g', 'u', 'i', '.'];
    forall j | 0 <= j < 10 ensures s[j] == PyautoguiDot[j] {
      assert s[..10][j] == s[j];
    }
    forall j | 0 <= j < 10 ensures (j >= 1 ==> s[j] != 'p') && (j < 9 ==> s[j] != '.') {
      if j == 0 {} else if j == 1 {} else if j == 2 {} else if j == 3 {} else if j == 4 {}
      else if j == 5 {} else if j == 6 {} else if j == 7 {} else if j == 8 {} else {}
    }
  }

  /** The only dot of a call `pyautogui.name(args)` whose text after the prefix holds no dot is the prefix's own. */
  lemma OnlyPrefixAtStart(s: string)
    requires StartsWith(s, PyautoguiDot) && forall k :: 10 <= k < |s| ==> s[k] != '.'
    ensures forall i :: 0 < i <= |s| ==> PrefixEnd(s, i).None?
    ensures PrefixEnd(s, 0) == Some(|PyautoguiDot|)
  {
    PrefixLetters(s);
    assert PgDot == ['p', 'g', '.'];
    OccursChars(s, PgDot, 0);
    forall i | 0 < i <= |s|
      ensures !OccursAt(s, PgDot, i) && !OccursAt(s, PyautoguiDot, i)
    {
      OccursChars(s, PgDot, i);
      OccursChars(s, PyautoguiDot, i);
      assert PgDot[0] == 'p' && PgDot[2] == '.' && PyautoguiDot[9] == '.';
    }
  }

  /** A digit string written at `q` and followed by a non-digit is read back whole by `\d+`. */
  lemma DigitsReadBack(s: string, q: nat, X: string)
    requires AllDigits(X) && q + |X| < |s|
    requires forall k :: 0 <= k < |X| ==> s[q + k] == X[k]
    requires !IsDigit(s[q + |X|])
    ensures DigitRunEnd(s, q) == q + |X| && s[q..q + |X|] == X
  {
    forall k | q <= k < q + |X| ensures IsDigit(s[k]) {
      assert s[q + (k - q)] == X[k - q];
    }
    DigitRunEndAt(s, q, q + |X|);
    assert s[q..q + |X|] == X;
  }

  /** `(\d+)\s*,\s*(\d+)` reads back two numerals written as `X, Y`. */
  lemma TwoNumbersReadBack(s: string, q: nat, X: string, Y: string)
    requires X != [] && AllDigits(X) && Y != [] && AllDigits(Y)
    requires q + |X| + 2 + |Y| < |s|
    requires forall k :: 0 <= k < |X| ==> s[q + k] == X[k]
    requires s[q + |X|] == ',' && s[q + |X| + 1] == ' '
    requires forall k :: 0 <= k < |Y| ==> s[q + |X| + 2 + k] == Y[k]
    requires !IsDigit(s[q + |X| + 2 + |Y|])
    ensures TwoNumbers(s, q) == Some((X, Y, q + |X| + 2 + |Y|))
  {
    var xe, ys := q + |X|, q + |X| + 2;
    DigitsReadBack(s, q, X);
    DigitsReadBack(s, ys, Y);
    assert !IsSpace(s[xe]) && IsSpace(s[xe + 1]);
    assert s[ys] == Y[0] && IsDigit(Y[0]) && !IsSpace(s[ys]);
    SkipSpacesAt(s, xe, xe);
    SkipSpacesAt(s, xe + 1, ys);
    assert CharAt(s, xe, ',');
  }

  /** `pyautogui.<name>(X, Y)`, assembled from the right. */
  function PointCall(name: string, x: nat, y: nat): string {
    PointCallOf(name, NatToString(x), NatToString(y))
  }

  /** `pyautogui.<name>(X, Y)` for the numerals `X` and `Y`. */
  function PointCallOf(name: string, X: string, Y: string): string {
    PyautoguiDot + (name + ("(" + (X + (", " + (Y + ")")))))
  }

  /** `s` reads `pyautogui.<name>(X, Y)`, character by character. */
  predicate PointCallText(s: string, name: string, X: string, Y: string) {
    var q := 10 + |name| + 1;
    |s| == q + |X| + 2 + |Y| + 1
    && StartsWith(s, PyautoguiDot)
    && (forall k :: 0 <= k < |name| ==> s[10 + k] == name[k])
    && s[q - 1] == '('
    && (forall k :: 0 <= k < |X| ==> s[q + k] == X[k])
    && s[q + |X|] == ',' && s[q + |X| + 1] == ' '
    && (forall k :: 0 <= k < |Y| ==> s[q + |X| + 2 + k] == Y[k])
    && s[q + |X| + 2 + |Y|] == ')'
  }

  lemma PointCallLayout(name: string, X: string, Y: string)
    ensures PointCallText(PointCallOf(name, X, Y), name, X, Y)
  {
    var t4 := Y + ")";
    var t3 := ", " + t4;
    var t2 := X + t3;
    var t1 := "(" + t2;
    var t0 := name + t1;
    var s := PyautoguiDot + t0;
    var q := 10 + |name| + 1;
    assert s == PointCallOf(name, X, Y);
    assert s[..10] == PyautoguiDot;
    forall k | 0 <= k < |name| ensures s[10 + k] == name[k] {
      assert s[10 + k] == t0[k];
    }
    assert s[q - 1] == '(' by {
      assert s[q - 1] == t0[|name|] == t1[0];
    }
    forall k | 0 <= k < |X| ensures s[q + k] == X[k] {
      assert s[q + k] == t0[|name| + 1 + k];
      assert t0[|name| + 1 + k] == t1[1 + k];
      assert t1[1 + k] == t2[k];
    }
    assert s[q + |X|] == ',' by {
      assert s[q + |X|] == t0[|name| + 1 + |X|] == t1[1 + |X|] == t2[|X|] == t3[0];
    }
    assert s[q + |X| + 1] == ' ' by {
      assert s[q + |X| + 1] == t0[|name| + 1 + |X| + 1] == t1[1 + |X| + 1] == t2[|X| + 1] == t3[1];
    }
    forall k | 0 <= k < |Y| ensures s[q + |X| + 2 + k] == Y[k] {
      assert s[q + |X| + 2 + k] == t0[|name| + 1 + |X| + 2 + k];
      assert t0[|name| + 1 + |X| + 2 + k] == t1[1 + |X| + 2 + k];
      assert t1[1 + |X| + 2 + k] == t2[|X| + 2 + k];
      assert t2[|X| + 2 + k] == t3[2 + k];
      assert t3[2 + k] == t4[k];
    }
    assert s[q + |X| + 2 + |Y|] == ')' by {
      assert s[q + |X| + 2 + |Y|] == t0[|name| + 1 + |X| + 2 + |Y|];
      assert t0[|name| + 1 + |X| + 2 + |Y|] == t1[1 + |X| + 2 + |Y|] == t2[|X| + 2 + |Y|] == t3[2 + |Y|] == t4[|Y|];
    }
  }

  /** Only the prefix of a written call holds a dot, when the call name holds none. */
  lemma PointCallPrefix(s: string, name: string, X: string, Y: string)
    requires PointCallText(s, name, X, Y) && '.' !in name && AllDigits(X) && AllDigits(Y)
    ensures PrefixEnd(s, 0) == Some(10) && forall i :: 0 < i <= |s| ==> PrefixEnd(s, i).None?
  {
    var q := 10 + |name| + 1;
    forall k | 10 <= k < |s| ensures s[k] != '.' {
      if k < 10 + |name| {
        assert s[10 + (k - 10)] == name[k - 10];
      } else if q <= k < q + |X| {
        assert s[q + (k - q)] == X[k - q];
      } else if q + |X| + 2 <= k < q + |X| + 2 + |Y| {
        assert s[q + |X| + 2 + (k - q - |X| - 2)] == Y[k - q - |X| - 2];
      }
    }
    OnlyPrefixAtStart(s);
  }

  /** The name of a written call decides which `name(` literal occurs after the prefix. */
  lemma PointCallName(s: string, name: string, X: string, Y: string, other: string)
    requires PointCallText(s, name, X, Y)
    ensures OccursAt(s, name + "(", 10)
    ensures other != [] && name != [] && other[0] != name[0] ==> !OccursAt(s, other + "(", 10)
  {
    OccursFromChars(s, name + "(", 10);
    OccursChars(s, other + "(", 10);
  }

  /** A name differing from the written one at position `j` does not occur after the prefix. */
  lemma PointCallOtherName(s: string, name: string, X: string, Y: string, other: string, j: nat)
    requires PointCallText(s, name, X, Y) && j < |name| && j < |other| && other[j] != name[j]
    ensures !OccursAt(s, other + "(", 10)
  {
    OccursChars(s, other + "(", 10);
    assert s[10 + j] == name[j];
  }

  /** The numerals of a written call are read back by `(\d+)\s*,\s*(\d+)` and closed by `)`. */
  lemma PointCallArgs(s: string, name: string, X: string, Y: string)
    requires PointCallText(s, name, X, Y) && X != [] && AllDigits(X) && Y != [] && AllDigits(Y)
    ensures var q := 10 + |name| + 1; var ye := q + |X| + 2 + |Y|;
      TwoNumbers(s, q) == Some((X, Y, ye)) && CharAt(s, ye, ')')
  {
    TwoNumbersReadBack(s, 10 + |name| + 1, X, Y);
  }

  lemma NumeralValueOf(x: nat)
    ensures NumeralValue(NatToString(x)) == x
  {
  }

  /** The call-name alternation of the click pattern picks the name a click was written with. */
  lemma ClickKindOfCall(s: string, name: string, X: string, Y: string)
    requires name == ClickName || name == DoubleClickName || name == TripleClickName || name == RightClickName
    requires PointCallText(s, name, X, Y)
    ensures ClickKind(s, 10) == Some(name)
  {
    PointCallName(s, name, X, Y, ClickName);
    PointCallName(s, name, X, Y, DoubleClickName);
    PointCallName(s, name, X, Y, TripleClickName);
  }

  /** The click pattern matches where a prefix, a click name, two numerals and `)` follow each other. */
  lemma ClickAtParts(s: string, name: string, X: string, Y: string, ye: nat)
    requires PrefixEnd(s, 0) == Some(10) && ClickKind(s, 10) == Some(name)
    requires 10 + |name| + 1 <= |s| && TwoNumbers(s, 10 + |name| + 1) == Some((X, Y, ye)) && CharAt(s, ye, ')')
    ensures ClickAt(s, 0) == Some(Captures([name, X, Y, ""]))
  {
  }

  /** The click pattern matches a written click at its start, capturing the name and both numerals. */
  lemma ClickAtClickCall(s: string, name: string, X: string, Y: string)
    requires name == ClickName || name == DoubleClickName || name == TripleClickName || name == RightClickName
    requires PointCallText(s, name, X, Y) && X != [] && AllDigits(X) && Y != [] && AllDigits(Y)
    ensures ClickAt(s, 0) == Some(Captures([name, X, Y, ""]))
  {
    PointCallPrefix(s, name, X, Y);
    ClickKindOfCall(s, name, X, Y);
    PointCallArgs(s, name, X, Y);
    ClickAtParts(s, name, X, Y, 10 + |name| + 1 + |X| + 2 + |Y|);
  }

  /** `pyautogui.click(x, y)` and its double, triple and right variants are read back with their coordinates. */
  lemma ClickRoundTrip(name: string, x: nat, y: nat)
    requires name == ClickName || name == DoubleClickName || name == TripleClickName || name == RightClickName
    ensures var r := ParsePyautoguiAction(PointCall(name, x, y));
      r.actionType == ClickType(name, "") && r.x == Some(x) && r.y == Some(y)
  {
    var X, Y := NatToString(x), NatToString(y);
    var s := PointCallOf(name, X, Y);
    PointCallLayout(name, X, Y);
    ClickAtClickCall(s, name, X, Y);
    FirstMatchAtStart(s, ClickAt);
    ParsedClick(s, Captures([name, X, Y, ""]));
    NumeralValueOf(x);
    NumeralValueOf(y);
  }

  /** A text the click pattern matches is parsed from that match. */
  lemma ParsedClick(s: string, c: Captures)
    requires s != "" && FirstMatch(s, 0, ClickAt) == Some(c)
    ensures ParsePyautoguiAction(s) ==
      ParsedAction(ClickType(Group(c, 0), Group(c, 3)), Some(NumeralValue(Group(c, 1))), Some(NumeralValue(Group(c, 2))), [], None, None, None, s)
  {
  }

  /** No click pattern matches a written call whose name starts with another letter than `c`, `d`, `t` or `r`. */
  lemma NoClickInPointCall(s: string, name: string, X: string, Y: string)
    requires PointCallText(s, name, X, Y) && AllDigits(X) && AllDigits(Y)
    requires '.' !in name && name != [] && name[0] !in {'c', 'd', 't', 'r'}
    ensures FirstMatch(s, 0, ClickAt).None?
  {
    PointCallPrefix(s, name, X, Y);
    PointCallName(s, name, X, Y, ClickName);
    PointCallName(s, name, X, Y, DoubleClickName);
    PointCallName(s, name, X, Y, TripleClickName);
    PointCallName(s, name, X, Y, RightClickName);
    assert ClickKind(s, 10).None?;
    FirstMatchNowhere(s, ClickAt);
  }

  /** The pattern for `name(X, Y)` matches where a prefix, that name, two numerals and `)` follow each other. */
  lemma PointCallAtParts(s: string, name: string, X: string, Y: string, ye: nat)
    requires PrefixEnd(s, 0) == Some(10) && OccursAt(s, name + "(", 10)
    requires 10 + |name| + 1 <= |s| && TwoNumbers(s, 10 + |name| + 1) == Some((X, Y, ye)) && CharAt(s, ye, ')')
    ensures PointCallAt(s, 0, name) == Some(Captures([X, Y]))
  {
  }

  /** A written call with a dot-free name is matched by the pattern for its own name at its start. */
  lemma PointCallMatches(s: string, name: string, X: string, Y: string)
    requires PointCallText(s, name, X, Y) && '.' !in name && X != [] && AllDigits(X) && Y != [] && AllDigits(Y)
    ensures PointCallAt(s, 0, name) == Some(Captures([X, Y]))
  {
    PointCallPrefix(s, name, X, Y);
    PointCallName(s, name, X, Y, name);
    PointCallArgs(s, name, X, Y);
    PointCallAtParts(s, name, X, Y, 10 + |name| + 1 + |X| + 2 + |Y|);
  }

  /** The pattern for `name(...)` matches nowhere in a text whose only prefix is not followed by `name(`. */
  lemma PointCallAtNowhere(s: string, name: string)
    requires PrefixEnd(s, 0) == Some(10) && forall i :: 0 < i <= |s| ==> PrefixEnd(s, i).None?
    requires !OccursAt(s, name + "(", 10)
    ensures forall i :: 0 <= i <= |s| ==> PointCallAt(s, i, name).None?
  {
  }

  /** `pyautogui.mouseDown(x, y)` is read back as a mouse-down at (x, y). */
  lemma MouseDownRoundTrip(x: nat, y: nat)
    ensures var r := ParsePyautoguiAction(PointCall(MouseDownName, x, y));
      r.actionType == MouseDown && r.x == Some(x) && r.y == Some(y)
  {
    var X, Y := NatToString(x), NatToString(y);
    var s := PointCallOf(MouseDownName, X, Y);
    PointCallLayout(MouseDownName, X, Y);
    MouseDownCallMatches(s, X, Y);
    NumeralValueOf(x);
    NumeralValueOf(y);
  }

  lemma MouseDownCallMatches(s: string, X: string, Y: string)
    requires PointCallText(s, MouseDownName, X, Y) && X != [] && AllDigits(X) && Y != [] && AllDigits(Y)
    ensures FirstMatch(s, 0, ClickAt).None? && FirstMatch(s, 0, MouseDownAt) == Some(Captures([X, Y]))
  {
    NoClickInPointCall(s, MouseDownName, X, Y);
    PointCallMatches(s, MouseDownName, X, Y);
    FirstMatchAtStart(s, MouseDownAt);
  }

  /** A `moveTo` call is no `mouseDown` call anywhere. */
  lemma NoMouseDownInMoveTo(x: nat, y: nat)
    ensures FirstMatch(PointCall(MoveToName, x, y), 0, MouseDownAt).None?
  {
    var X, Y := NatToString(x), NatToString(y);
    PointCallLayout(MoveToName, X, Y);
    NoMouseDownInMoveToText(PointCallOf(MoveToName, X, Y), X, Y);
  }

  lemma NoMouseDownInMoveToText(s: string, X: string, Y: string)
    requires PointCallText(s, MoveToName, X, Y) && AllDigits(X) && AllDigits(Y)
    ensures FirstMatch(s, 0, MouseDownAt).None?
  {
    PointCallPrefix(s, MoveToName, X, Y);
    PointCallOtherName(s, MoveToName, X, Y, MouseDownName, 2);
    PointCallAtNowhere(s, MouseDownName);
    FirstMatchNowhere(s, MouseDownAt);
  }

  /** `pyautogui.moveTo(x, y)` is read back as a move to (x, y). */
  lemma MoveToRoundTrip(x: nat, y: nat)
    ensures var r := ParsePyautoguiAction(PointCall(MoveToName, x, y));
      r.actionType == MoveTo && r.x == Some(x) && r.y == Some(y)
  {
    var X, Y := NatToString(x), NatToString(y);
    var s := PointCallOf(MoveToName, X, Y);
    PointCallLayout(MoveToName, X, Y);
    MoveToCallMatches(s, X, Y);
    NumeralValueOf(x);
    NumeralValueOf(y);
  }

  lemma MoveToCallMatches(s: string, X: string, Y: string)
    requires PointCallText(s, MoveToName, X, Y) && X != [] && AllDigits(X) && Y != [] && AllDigits(Y)
    ensures FirstMatch(s, 0, ClickAt).None? && FirstMatch(s, 0, MouseDownAt).None?
    ensures FirstMatch(s, 0, MoveToAt) == Some(Captures([X, Y]))
  {
    NoClickInPointCall(s, MoveToName, X, Y);
    NoMouseDownInMoveToText(s, X, Y);
    PointCallMatches(s, MoveToName, X, Y);
    FirstMatchAtStart(s, MoveToAt);
  }

  // ---------------------------------------------------------------------------------------------
  // scroll amounts and hotkey keys

  /** A scroll match captures `-` and digits or digits alone, so the amount keeps the sign it was written with. */
  lemma ScrollKeepsSign(s: string, i: nat, c: Captures)
    requires ScrollAt(s, i) == Some(c)
    ensures Group(c, 0) != []
    ensures Group(c, 0)[0] == '-' ==>
      Group(c, 0)[1..] != [] && AllDigits(Group(c, 0)[1..]) && SignedValue(Group(c, 0)) == -(DigitsValue(Group(c, 0)[1..]) as int)
    ensures Group(c, 0)[0] != '-' ==> AllDigits(Group(c, 0)) && SignedValue(Group(c, 0)) == DigitsValue(Group(c, 0)) as int
  {
    var q := CallArgs(s, i, ScrollName).value;
    var ds := if CharAt(s, q, '-') then q + 1 else q;
    var e := DigitRunEnd(s, ds);
    assert Group(c, 0) == s[q..e];
    assert AllDigits(s[ds..e]);
    if CharAt(s, q, '-') {
      assert s[q..e][1..] == s[ds..e];
    } else {
      assert s[q..e] == s[ds..e];
    }
  }

  /** The argument text of `hotkey` as a recorder writes it: `'a', 'b', 'c'`. */
  function QuotedKeys(keys: seq<string>): string {
    if keys == [] then ""
    else if |keys| == 1 then "'" + keys[0] + "'"
    else "'" + keys[0] + "', " + QuotedKeys(keys[1..])
  }

  lemma {:induction false} NonQuoteRunEndShift(p: string, q: string, i: nat)
    requires i <= |q|
    ensures NonQuoteRunEnd(p + q, |p| + i) == |p| + NonQuoteRunEnd(q, i)
    decreases |q| - i
  {
    if i < |q| && !IsQuote(q[i]) {
      assert (p + q)[|p| + i] == q[i];
      NonQuoteRunEndShift(p, q, i + 1);
    } else if i < |q| {
      assert (p + q)[|p| + i] == q[i];
    }
  }

  /** The keys found from position `|p| + i` of `p + q` are those found from `i` in `q`. */
  lemma {:induction false} HotkeyKeysShift(p: string, q: string, i: nat)
    requires i <= |q|
    ensures HotkeyKeys(p + q, |p| + i) == HotkeyKeys(q, i)
    decreases |q| - i
  {
    if i < |q| {
      assert (p + q)[|p| + i] == q[i];
      if !IsQuote(q[i]) {
        HotkeyKeysShift(p, q, i + 1);
      } else {
        NonQuoteRunEndShift(p, q, i + 1);
        var e := NonQuoteRunEnd(q, i + 1);
        if e > i + 1 && e < |q| {
          assert (p + q)[|p| + i + 1..|p| + e] == q[i + 1..e];
          HotkeyKeysShift(p, q, e + 1);
        } else {
          HotkeyKeysShift(p, q, i + 1);
        }
      }
    }
  }

  /** The first quoted key: its closing quote ends the run of non-quotes after the opening one. */
  lemma FirstQuotedKey(k: string, rest: string)
    requires k != [] && forall m :: 0 <= m < |k| ==> !IsQuote(k[m])
    ensures var t := "'" + k + "'" + rest; NonQuoteRunEnd(t, 1) == |k| + 1 && t[1..|k| + 1] == k
  {
    var t := "'" + k + "'" + rest;
    assert forall m :: 1 <= m < |k| + 1 ==> t[m] == k[m - 1];
    assert IsQuote(t[|k| + 1]);
  }

  /** A quoted key is found first, and the search resumes after its closing quote. */
  lemma QuotedKeyFirst(k: string, rest: string)
    requires k != [] && forall m :: 0 <= m < |k| ==> !IsQuote(k[m])
    ensures HotkeyKeys("'" + k + "'" + rest, 0) == [k] + HotkeyKeys(rest, 0)
  {
    var p := "'" + k + "'";
    var t := p + rest;
    assert "'" + k + "'" + rest == t;
    FirstQuotedKey(k, rest);
    assert HotkeyKeys(t, 0) == [k] + HotkeyKeys(t, |k| + 2);
    HotkeyKeysShift(p, rest, 0);
  }

  /** The `, ` between two quoted keys holds no quote and yields no key. */
  lemma SeparatorSkipped(r: string)
    ensures HotkeyKeys(", " + r, 0) == HotkeyKeys(r, 0)
  {
    var t := ", " + r;
    assert !IsQuote(t[0]) && !IsQuote(t[1]);
    assert HotkeyKeys(t, 0) == HotkeyKeys(t, 2);
    HotkeyKeysShift(", ", r, 0);
  }

  /** `hotkey` yields the quoted keys of its argument text, in the order they were written. */
  lemma {:induction false} HotkeyKeysInOrder(keys: seq<string>)
    requires forall j :: 0 <= j < |keys| ==> keys[j] != [] && forall m :: 0 <= m < |keys[j]| ==> !IsQuote(keys[j][m])
    ensures HotkeyKeys(QuotedKeys(keys), 0) == keys
    decreases |keys|
  {
    if |keys| == 1 {
      QuotedKeyFirst(keys[0], "");
      assert "'" + keys[0] + "'" + "" == QuotedKeys(keys);
    } else if |keys| > 1 {
      var r := QuotedKeys(keys[1..]);
      QuotedKeyFirst(keys[0], ", " + r);
      assert "'" + keys[0] + "'" + (", " + r) == QuotedKeys(keys);
      SeparatorSkipped(r);
      HotkeyKeysInOrder(keys[1..]);
      assert keys == [keys[0]] + keys[1..];
    }
  }

  // ---------------------------------------------------------------------------------------------
  // a click with a `button` argument

  lemma WordRunEndAt(s: string, i: nat, j: nat)
    requires i <= j <= |s|
    requires forall k :: i <= k < j ==> IsWordChar(s[k])
    requires j == |s| || !IsWordChar(s[j])
    ensures WordRunEnd(s, i) == j
  {
  }

  /** `, button='<b>')`: the argument the recorder adds to name a mouse button. */
  function ButtonTail(b: string): string {
    ", button='" + (b + "')")
  }

  /** `pyautogui.<name>(X, Y<tail>)`, assembled from the right. */
  function CallOf(name: string, X: string, Y: string, tail: string): string {
    PyautoguiDot + (name + ("(" + (X + (", " + (Y + tail)))))
  }

  /** `pyautogui.<name>(x, y, button='<b>')`. */
  function ButtonCall(name: string, x: nat, y: nat, b: string): string {
    CallOf(name, NatToString(x), NatToString(y), ButtonTail(b))
  }

  lemma OccursAtStart(a: string, b: string)
    ensures OccursAt(a + b, a, 0)
  {
    assert (a + b)[0..|a|] == a;
  }

  lemma OccursAtEnd(a: string, b: string)
    ensures OccursAt(a + b, b, |a|)
  {
    assert (a + b)[|a|..|a| + |b|] == b;
  }

  /** An occurrence inside an occurrence is an occurrence. */
  lemma OccursWithin(s: string, u: string, i: nat, v: string, j: nat)
    requires OccursAt(s, u, i) && OccursAt(u, v, j)
    ensures OccursAt(s, v, i + j)
  {
    OccursChars(s, u, i);
    OccursChars(u, v, j);
    forall k | 0 <= k < |v| ensures s[i + j + k] == v[k] {
      assert s[i + (j + k)] == u[j + k];
    }
    OccursFromChars(s, v, i + j);
  }

  /** `s` reads `pyautogui.<name>(X, Y` followed by `tail`, piece by piece. */
  predicate CallHead(s: string, name: string, X: string, Y: string, tail: string) {
    var q := 10 + |name| + 1;
    var ye := q + |X| + 2 + |Y|;
    |s| == ye + |tail|
    && OccursAt(s, PyautoguiDot, 0) && OccursAt(s, name, 10) && OccursAt(s, "(", q - 1)
    && OccursAt(s, X, q) && OccursAt(s, ", ", q + |X|) && OccursAt(s, Y, q + |X| + 2) && OccursAt(s, tail, ye)
  }

  /** The pieces of a call, each found inside the rest of the call after the piece before it. */
  lemma CallHeadOfPieces(s: string, name: string, X: string, Y: string, tail: string,
                         t0: string, t1: string, t2: string, t3: string, t4: string)
    requires |s| == 10 + |t0| && |t0| == |name| + |t1| && |t1| == 1 + |t2|
    requires |t2| == |X| + |t3| && |t3| == 2 + |t4| && |t4| == |Y| + |tail|
    requires OccursAt(s, PyautoguiDot, 0) && OccursAt(s, t0, 10)
    requires OccursAt(t0, name, 0) && OccursAt(t0, t1, |name|)
    requires OccursAt(t1, "(", 0) && OccursAt(t1, t2, 1)
    requires OccursAt(t2, X, 0) && OccursAt(t2, t3, |X|)
    requires OccursAt(t3, ", ", 0) && OccursAt(t3, t4, 2)
    requires OccursAt(t4, Y, 0) && OccursAt(t4, tail, |Y|)
    ensures CallHead(s, name, X, Y, tail)
  {
    var q := 10 + |name| + 1;
    OccursWithin(s, t0, 10, name, 0);
    OccursWithin(s, t0, 10, t1, |name|);
    OccursWithin(s, t1, 10 + |name|, "(", 0);
    OccursWithin(s, t1, 10 + |name|, t2, 1);
    OccursWithin(s, t2, q, X, 0);
    OccursWithin(s, t2, q, t3, |X|);
    OccursWithin(s, t3, q + |X|, ", ", 0);
    OccursWithin(s, t3, q + |X|, t4, 2);
    OccursWithin(s, t4, q + |X| + 2, Y, 0);
    OccursWithin(s, t4, q + |X| + 2, tail, |Y|);
  }

  lemma CallHeadLayout(name: string, X: string, Y: string, tail: string)
    ensures CallHead(CallOf(name, X, Y, tail), name, X, Y, tail)
  {
    var t4 := Y + tail;
    var t3 := ", " + t4;
    var t2 := X + t3;
    var t1 := "(" + t2;
    var t0 := name + t1;
    OccursAtStart(PyautoguiDot, t0);
    OccursAtEnd(PyautoguiDot, t0);
    OccursAtStart(name, t1);
    OccursAtEnd(name, t1);
    OccursAtStart("(", t2);
    OccursAtEnd("(", t2);
    OccursAtStart(X, t3);
    OccursAtEnd(X, t3);
    OccursAtStart(", ", t4);
    OccursAtEnd(", ", t4);
    OccursAtStart(Y, tail);
    OccursAtEnd(Y, tail);
    CallHeadOfPieces(CallOf(name, X, Y, tail), name, X, Y, tail, t0, t1, t2, t3, t4);
  }

  /** `t` reads `, button='<b>')`. */
  predicate IsButtonTail(t: string, b: string) {
    |t| == 12 + |b| && t[0] == ',' && t[1] == ' ' && OccursAt(t, "button", 2) && t[8] == '=' && t[9] == '\''
    && OccursAt(t, b, 10) && t[10 + |b|] == '\'' && t[11 + |b|] == ')'
  }

  lemma ButtonTailChars(b: string)
    ensures IsButtonTail(ButtonTail(b), b)
  {
    var h := ", button='";
    var r := b + "')";
    var t := ButtonTail(b);
    assert h == [',', ' ', 'b', 'u', 't', 't', 'o', 'n', '=', '\''];
    assert t == h + r;
    assert t[2..8] == h[2..8] == "button";
    assert t[10..10 + |b|] == r[..|b|] == b;
    assert t[10 + |b|] == r[|b|];
    assert t[11 + |b|] == r[|b| + 1];
  }

  /** `\s*,\s*button\s*=\s*['"](\w+)['"]` at `ye`, where `, button='<b>'` is written, followed by `)`. */
  lemma ButtonGroupAt(s: string, ye: nat, b: string)
    requires b != [] && forall k :: 0 <= k < |b| ==> IsWordChar(b[k])
    requires ye + 12 + |b| <= |s|
    requires s[ye] == ',' && s[ye + 1] == ' ' && OccursAt(s, "button", ye + 2) && s[ye + 8] == '=' && s[ye + 9] == '\''
    requires OccursAt(s, b, ye + 10) && s[ye + 10 + |b|] == '\'' && s[ye + 11 + |b|] == ')'
    ensures ButtonGroup(s, ye) == Some((b, ye + 11 + |b|)) && CharAt(s, ye + 11 + |b|, ')')
  {
    SkipSpacesAt(s, ye, ye);
    OccursChars(s, "button", ye + 2);
    assert s[ye + 2] == 'b';
    SkipSpacesAt(s, ye + 1, ye + 2);
    SkipSpacesAt(s, ye + 8, ye + 8);
    SkipSpacesAt(s, ye + 9, ye + 9);
    var e := ye + 10 + |b|;
    OccursChars(s, b, ye + 10);
    forall k | ye + 10 <= k < e ensures IsWordChar(s[k]) {
      assert s[ye + 10 + (k - ye - 10)] == b[k - ye - 10];
    }
    WordRunEndAt(s, ye + 10, e);
  }

  /** A tail written at `ye` lends its characters to the text. */
  lemma ButtonTailAt(s: string, ye: nat, t: string, b: string)
    requires |s| == ye + |t| && OccursAt(s, t, ye)
    requires IsButtonTail(t, b)
    ensures s[ye] == ',' && s[ye + 1] == ' ' && OccursAt(s, "button", ye + 2) && s[ye + 8] == '=' && s[ye + 9] == '\''
    ensures OccursAt(s, b, ye + 10) && s[ye + 10 + |b|] == '\'' && s[ye + 11 + |b|] == ')'
  {
    OccursWithin(s, t, ye, "button", 2);
    OccursWithin(s, t, ye, b, 10);
    OccursChars(s, t, ye);
    assert s[ye + 0] == t[0] && s[ye + 1] == t[1] && s[ye + 8] == t[8] && s[ye + 9] == t[9];
    assert s[ye + (10 + |b|)] == t[10 + |b|] && s[ye + (11 + |b|)] == t[11 + |b|];
  }

  /** The click pattern matches where a prefix, a click name, two numerals, a button group and `)` follow each other. */
  lemma ButtonClickAtParts(s: string, name: string, X: string, Y: string, ye: nat, b: string, k: nat)
    requires PrefixEnd(s, 0) == Some(10) && ClickKind(s, 10) == Some(name)
    requires 10 + |name| + 1 <= |s| && TwoNumbers(s, 10 + |name| + 1) == Some((X, Y, ye)) && !CharAt(s, ye, ')')
    requires ButtonGroup(s, ye) == Some((b, k)) && CharAt(s, k, ')')
    ensures ClickAt(s, 0) == Some(Captures([name, X, Y, b]))
  {
  }

  /** A written call's prefix ends at position 10. */
  lemma CallHeadPrefix(s: string, name: string, X: string, Y: string, tail: string)
    requires CallHead(s, name, X, Y, tail)
    ensures PrefixEnd(s, 0) == Some(10)
  {
    assert s[..10] == s[0..10];
    PrefixLetters(s);
    assert PgDot == ['p', 'g', '.'];
    OccursChars(s, PgDot, 0);
  }

  /** The call-name alternation of the click pattern picks the click name a call was written with. */
  lemma CallHeadClickKind(s: string, name: string, X: string, Y: string, tail: string)
    requires name == ClickName || name == DoubleClickName || name == TripleClickName || name == RightClickName
    requires CallHead(s, name, X, Y, tail)
    ensures ClickKind(s, 10) == Some(name)
  {
    OccursChars(s, name, 10);
    OccursChars(s, "(", 10 + |name|);
    forall k | 0 <= k < |name + "("| ensures s[10 + k] == (name + "(")[k] {
      if k == |name| {
        assert s[10 + |name| + 0] == "("[0];
      }
    }
    OccursFromChars(s, name + "(", 10);
    OccursChars(s, ClickName + "(", 10);
    OccursChars(s, DoubleClickName + "(", 10);
    OccursChars(s, TripleClickName + "(", 10);
    assert s[10 + 0] == name[0];
  }

  /** The numerals of a written call are read back when a non-digit follows them. */
  lemma CallHeadNumbers(s: string, name: string, X: string, Y: string, tail: string)
    requires X != [] && AllDigits(X) && Y != [] && AllDigits(Y)
    requires CallHead(s, name, X, Y, tail) && tail != [] && !IsDigit(tail[0])
    ensures TwoNumbers(s, 10 + |name| + 1) == Some((X, Y, 10 + |name| + 1 + |X| + 2 + |Y|))
  {
    var q := 10 + |name| + 1;
    var ye := q + |X| + 2 + |Y|;
    OccursChars(s, X, q);
    OccursChars(s, ", ", q + |X|);
    OccursChars(s, Y, q + |X| + 2);
    OccursChars(s, tail, ye);
    assert s[q + |X| + 0] == ',' && s[q + |X| + 1] == ' ';
    assert s[ye + 0] == tail[0];
    TwoNumbersReadBack(s, q, X, Y);
  }

  /** The click pattern matches a text written as a click with a button argument, capturing the button. */
  lemma ButtonClickAtText(s: string, name: string, X: string, Y: string, t: string, b: string)
    requires name == ClickName || name == DoubleClickName || name == TripleClickName || name == RightClickName
    requires X != [] && AllDigits(X) && Y != [] && AllDigits(Y)
    requires b != [] && forall k :: 0 <= k < |b| ==> IsWordChar(b[k])
    requires CallHead(s, name, X, Y, t) && IsButtonTail(t, b)
    ensures ClickAt(s, 0) == Some(Captures([name, X, Y, b]))
  {
    var q := 10 + |name| + 1;
    var ye := q + |X| + 2 + |Y|;
    var k := ye + 11 + |b|;
    assert PrefixEnd(s, 0) == Some(10) by { CallHeadPrefix(s, name, X, Y, t); }
    assert ClickKind(s, 10) == Some(name) by { CallHeadClickKind(s, name, X, Y, t); }
    assert TwoNumbers(s, q) == Some((X, Y, ye)) by { CallHeadNumbers(s, name, X, Y, t); }
    assert !CharAt(s, ye, ')') && ButtonGroup(s, ye) == Some((b, k)) && CharAt(s, k, ')') by {
      ButtonTailAt(s, ye, t, b);
      ButtonGroupAt(s, ye, b);
    }
    ButtonClickAtParts(s, name, X, Y, ye, b, k);
  }

  lemma ButtonClickAt(name: string, X: string, Y: string, b: string)
    requires name == ClickName || name == DoubleClickName || name == TripleClickName || name == RightClickName
    requires X != [] && AllDigits(X) && Y != [] && AllDigits(Y)
    requires b != [] && forall k :: 0 <= k < |b| ==> IsWordChar(b[k])
    ensures ClickAt(CallOf(name, X, Y, ButtonTail(b)), 0) == Some(Captures([name, X, Y, b]))
  {
    CallHeadLayout(name, X, Y, ButtonTail(b));
    ButtonTailChars(b);
    ButtonClickAtText(CallOf(name, X, Y, ButtonTail(b)), name, X, Y, ButtonTail(b), b);
  }

  /**
   * `pyautogui.<name>(x, y, button='<b>')` is read back with its coordinates, and its type is the
   * one `ClickType` gives the name and the button.
   */
  lemma ButtonClickRoundTrip(name: string, x: nat, y: nat, b: string)
    requires name == ClickName || name == DoubleClickName || name == TripleClickName || name == RightClickName
    requires b != [] && forall k :: 0 <= k < |b| ==> IsWordChar(b[k])
    ensures var r := ParsePyautoguiAction(ButtonCall(name, x, y, b));
      r.actionType == ClickType(name, b) && r.x == Some(x) && r.y == Some(y)
  {
    var X, Y := NatToString(x), NatToString(y);
    var s := CallOf(name, X, Y, ButtonTail(b));
    ButtonClickAt(name, X, Y, b);
    FirstMatchAtStart(s, ClickAt);
    ParsedClick(s, Captures([name, X, Y, b]));
    NumeralValueOf(x);
    NumeralValueOf(y);
  }

  /** `pyautogui.click(x, y, button='<b>')` is a right click exactly when `b` is `right`, and a plain click otherwise. */
  lemma RightButtonClick(x: nat, y: nat, b: string)
    requires b != [] && forall k :: 0 <= k < |b| ==> IsWordChar(b[k])
    ensures var r := ParsePyautoguiAction(ButtonCall(ClickName, x, y, b));
      (r.actionType == RightClick <==> b == "right")
      && (b != "right" ==> r.actionType == Click)
      && r.x == Some(x) && r.y == Some(y)
  {
    ButtonClickRoundTrip(ClickName, x, y, b);
  }
}
