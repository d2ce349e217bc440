/**
 * `parsePyautoguiAction`: recognising one pyautogui call in a recorded action string.
 *
 * The rules are tried in a fixed order (click family, mouseDown, moveTo, mouseUp, press, hotkey,
 * write, typewrite, scroll, time.sleep); the first rule whose pattern occurs anywhere in the string
 * decides the result, and within a rule the leftmost occurrence supplies the captured groups. Each
 * pattern is written out below as the function that decides whether it matches at a given start
 * position, with the backtracking choices the regular-expression engine would make.
 */
module Actions {
  import opened Wrappers
  import opened Text

  datatype ActionType =
    | Unknown | Click | DoubleClick | TripleClick | RightClick
    | MouseDown | MoveTo | MouseUp | Press | Hotkey | Write | Scroll | Sleep

  datatype ParsedAction = ParsedAction(
    actionType: ActionType,
    x: Option<int>,
    y: Option<int>,
    keys: seq<string>,
    text: Option<string>,
    scrollAmount: Option<int>,
    sleepDuration: Option<Num>,
    raw: string)

  /** The groups a match captured, in order; a group that took no part in the match is "". */
  datatype Captures = Captures(groups: seq<string>)

  const PgDot := "pg."
  const PyautoguiDot := "pyautogui."
  const TimeSleepCall := "time.sleep("

  predicate IsQuote(c: char) { c == '\'' || c == '"' }

  function SkipSpaces(s: string, i: nat): (r: nat)
    requires i <= |s|
    ensures i <= r <= |s|
    ensures forall k :: i <= k < r ==> IsSpace(s[k])
    ensures r == |s| || !IsSpace(s[r])
    decreases |s| - i
  {
    if i < |s| && IsSpace(s[i]) then SkipSpaces(s, i + 1) else i
  }

  function WordRunEnd(s: string, i: nat): (r: nat)
    requires i <= |s|
    ensures i <= r <= |s|
    ensures forall k :: i <= k < r ==> IsWordChar(s[k])
    ensures r == |s| || !IsWordChar(s[r])
    decreases |s| - i
  {
    if i < |s| && IsWordChar(s[i]) then WordRunEnd(s, i + 1) else i
  }

  /** The end of a maximal run of digits and dots (`[\d.]+`). */
  function NumeralRunEnd(s: string, i: nat): (r: nat)
    requires i <= |s|
    ensures i <= r <= |s|
    ensures forall k :: i <= k < r ==> IsDigit(s[k]) || s[k] == '.'
    ensures r == |s| || !(IsDigit(s[r]) || s[r] == '.')
    decreases |s| - i
  {
    if i < |s| && (IsDigit(s[i]) || s[i] == '.') then NumeralRunEnd(s, i + 1) else i
  }

  predicate CharAt(s: string, i: nat, c: char) {
    i < |s| && s[i] == c
  }

  /** `(?:pg|pyautogui)\.` at `i`: where the call name starts. */
  function PrefixEnd(s: string, i: nat): (r: Option<nat>)
    ensures r.Some? ==> r.value <= |s|
    ensures r.Some? <==> OccursAt(s, PgDot, i) || OccursAt(s, PyautoguiDot, i)
  {
    if OccursAt(s, PgDot, i) then Some(i + |PgDot|)
    else if OccursAt(s, PyautoguiDot, i) then Some(i + |PyautoguiDot|)
    else None
  }

  /** `name\(` at `p` after the prefix: where the arguments start. */
  function CallArgs(s: string, i: nat, name: string): (r: Option<nat>)
    ensures r.Some? ==> r.value <= |s|
  {
    match PrefixEnd(s, i)
    case None => None
    case Some(p) => if OccursAt(s, name + "(", p) then Some(p + |name| + 1) else None
  }

  /** `(\d+)\s*,\s*(\d+)` at `q`: the two numerals and where the second ends. */
  function TwoNumbers(s: string, q: nat): (r: Option<(string, string, nat)>)
    requires q <= |s|
    ensures r.Some? ==> r.value.2 <= |s|
    ensures r.Some? ==> r.value.0 != [] && AllDigits(r.value.0) && r.value.1 != [] && AllDigits(r.value.1)
  {
    var xe := DigitRunEnd(s, q);
    if xe == q then None
    else
      var c := SkipSpaces(s, xe);
      if !CharAt(s, c, ',') then None
      else
        var ys := SkipSpaces(s, c + 1);
        var ye := DigitRunEnd(s, ys);
        if ye == ys then None
        else
          assert AllDigits(s[q..xe]) && AllDigits(s[ys..ye]);
          Some((s[q..xe], s[ys..ye], ye))
  }

  /** `\s*,\s*button\s*=\s*['"](\w+)['"]` at `j`: the button name and where the group ends. */
  function ButtonGroup(s: string, j: nat): (r: Option<(string, nat)>)
    requires j <= |s|
    ensures r.Some? ==> r.value.1 <= |s| && r.value.0 != []
  {
    var a := SkipSpaces(s, j);
    if !CharAt(s, a, ',') then None
    else
      var b := SkipSpaces(s, a + 1);
      if !OccursAt(s, "button", b) then None
      else
        var c := SkipSpaces(s, b + 6);
        if !CharAt(s, c, '=') then None
        else
          var d := SkipSpaces(s, c + 1);
          if !(d < |s| && IsQuote(s[d])) then None
          else
            var e := WordRunEnd(s, d + 1);
            if e == d + 1 || !(e < |s| && IsQuote(s[e])) then None
            else Some((s[d + 1..e], e + 1))
  }

  const ClickName := "click"
  const DoubleClickName := "doubleClick"
  const TripleClickName := "tripleClick"
  const RightClickName := "rightClick"

  /** `(click|doubleClick|tripleClick|rightClick)\(` after the prefix. */
  function ClickKind(s: string, p: nat): Option<string> {
    if OccursAt(s, ClickName + "(", p) then Some(ClickName)
    else if OccursAt(s, DoubleClickName + "(", p) then Some(DoubleClickName)
    else if OccursAt(s, TripleClickName + "(", p) then Some(TripleClickName)
    else if OccursAt(s, RightClickName + "(", p) then Some(RightClickName)
    else None
  }

  /** The click pattern at `i`; groups: call name, x, y, button. */
  function ClickAt(s: string, i: nat): Option<Captures> {
    match PrefixEnd(s, i)
    case None => None
    case Some(p) =>
      match ClickKind(s, p)
      case None => None
      case Some(name) =>
        var q := p + |name| + 1;
        match TwoNumbers(s, q)
        case None => None
        case Some((x, y, ye)) =>
          if CharAt(s, ye, ')') then Some(Captures([name, x, y, ""]))
          else
            match ButtonGroup(s, ye)
            case None => None
            case Some((button, k)) =>
              if CharAt(s, k, ')') then Some(Captures([name, x, y, button])) else None
  }

  /** `mouseDown\((\d+)\s*,\s*(\d+)\)` and `moveTo\(...\)` at `i`. */
  function PointCallAt(s: string, i: nat, name: string): Option<Captures> {
    match CallArgs(s, i, name)
    case None => None
    case Some(q) =>
      match TwoNumbers(s, q)
      case None => None
      case Some((x, y, ye)) => if CharAt(s, ye, ')') then Some(Captures([x, y])) else None
  }

  const MouseDownName := "mouseDown"
  const MoveToName := "moveTo"
  const MouseUpName := "mouseUp"
  const PressName := "press"
  const HotkeyName := "hotkey"
  const WriteName := "write"
  const TypewriteName := "typewrite"
  const ScrollName := "scroll"

  function MouseDownAt(s: string, i: nat): Option<Captures> { PointCallAt(s, i, MouseDownName) }

  function MoveToAt(s: string, i: nat): Option<Captures> { PointCallAt(s, i, MoveToName) }

  function MouseUpAt(s: string, i: nat): Option<Captures> {
    match CallArgs(s, i, MouseUpName)
    case None => None
    case Some(q) => if CharAt(s, q, ')') then Some(Captures([])) else None
  }

  /**
   * A lazy `(.+?)` starting at `start`, followed by what `closes` accepts at the position after
   * it: the first `k > start` where `closes` holds, every character before it being no line terminator.
   */
  function LazyUntil(s: string, start: nat, k: nat, closes: (string, nat) -> bool): (r: Option<nat>)
    requires start < k
    ensures r.Some? ==> k <= r.value < |s| && closes(s, r.value)
    ensures r.Some? ==> forall m :: k <= m < r.value ==> !closes(s, m) && !IsLineTerminator(s[m])
    decreases |s| - k
  {
    if k >= |s| then None
    else if closes(s, k) then Some(k)
    else if IsLineTerminator(s[k]) then None
    else LazyUntil(s, start, k + 1, closes)
  }

  /** `['"]\)` at `k`. */
  predicate QuoteParen(s: string, k: nat) {
    k < |s| && IsQuote(s[k]) && CharAt(s, k + 1, ')')
  }

  predicate Paren(s: string, k: nat) {
    CharAt(s, k, ')')
  }

  /** `press\(['"](.+?)['"]\)` at `i`; group: the key. */
  function PressAt(s: string, i: nat): Option<Captures> {
    match CallArgs(s, i, PressName)
    case None => None
    case Some(q) =>
      if !(q + 1 < |s| && IsQuote(s[q]) && !IsLineTerminator(s[q + 1])) then None
      else
        match LazyUntil(s, q + 1, q + 2, QuoteParen)
        case None => None
        case Some(k) => Some(Captures([s[q + 1..k]]))
  }

  /** `hotkey\((.+?)\)` at `i`; group: the argument text. */
  function HotkeyAt(s: string, i: nat): Option<Captures> {
    match CallArgs(s, i, HotkeyName)
    case None => None
    case Some(q) =>
      if !(q < |s| && !IsLineTerminator(s[q])) then None
      else
        match LazyUntil(s, q, q + 1, Paren)
        case None => None
        case Some(k) => Some(Captures([s[q..k]]))
  }

  /** The end of a maximal run of characters other than quotes (`[^'"]+`). */
  function NonQuoteRunEnd(s: string, i: nat): (r: nat)
    requires i <= |s|
    ensures i <= r <= |s|
    ensures forall k :: i <= k < r ==> !IsQuote(s[k])
    ensures r == |s| || IsQuote(s[r])
    decreases |s| - i
  {
    if i < |s| && !IsQuote(s[i]) then NonQuoteRunEnd(s, i + 1) else i
  }

  /**
   * `keysStr.match(/['"]([^'"]+)['"]/g)` with the quotes then removed: every quoted, non-empty,
   * quote-free run, scanning left to right and resuming after each match.
   */
  function HotkeyKeys(t: string, i: nat): (r: seq<string>)
    requires i <= |t|
    ensures forall k :: 0 <= k < |r| ==> r[k] != [] && forall m :: 0 <= m < |r[k]| ==> !IsQuote(r[k][m])
    decreases |t| - i
  {
    if i == |t| then []
    else if !IsQuote(t[i]) then HotkeyKeys(t, i + 1)
    else
      var e := NonQuoteRunEnd(t, i + 1);
      if e > i + 1 && e < |t| then [t[i + 1..e]] + HotkeyKeys(t, e + 1)
      else HotkeyKeys(t, i + 1)
  }

  /** `(?:\s*,\s*.*?)?\)` at `r`, with `.` matching every character (`s` flag). */
  predicate WriteTail(s: string, r: nat) {
    r <= |s| &&
    (CharAt(s, r, ')')
     || (var c := SkipSpaces(s, r); CharAt(s, c, ',') && ')' in s[c + 1..]))
  }

  /** The closing quote of `(['"])(.+?)\1...` whose text starts at `a + 1`: the first `k >= a + 2` holding the same quote with a valid tail after it. */
  function WriteClose(s: string, a: nat, k: nat): (r: Option<nat>)
    requires a < |s| && a + 2 <= k
    ensures r.Some? ==> k <= r.value < |s| && s[r.value] == s[a] && WriteTail(s, r.value + 1)
    ensures r.Some? ==> forall m :: k <= m < r.value ==> !(s[m] == s[a] && WriteTail(s, m + 1))
    ensures r.None? ==> forall m :: k <= m < |s| ==> !(s[m] == s[a] && WriteTail(s, m + 1))
    decreases |s| - k
  {
    if k >= |s| then None
    else if s[k] == s[a] && WriteTail(s, k + 1) then Some(k)
    else WriteClose(s, a, k + 1)
  }

  /** `name\((['"])(.+?)\1(?:\s*,\s*.*?)?\)` at `i` (flag `s`); groups: the quote, the text. */
  function TextCallAt(s: string, i: nat, name: string): Option<Captures> {
    match CallArgs(s, i, name)
    case None => None
    case Some(a) =>
      if !(a + 1 < |s| && IsQuote(s[a])) then None
      else
        match WriteClose(s, a, a + 2)
        case None => None
        case Some(k) => Some(Captures([[s[a]], s[a + 1..k]]))
  }

  function WriteAt(s: string, i: nat): Option<Captures> { TextCallAt(s, i, WriteName) }

  function TypewriteAt(s: string, i: nat): Option<Captures> { TextCallAt(s, i, TypewriteName) }

  /** `scroll\((-?\d+)\)` at `i`; group: the signed numeral. */
  function ScrollAt(s: string, i: nat): Option<Captures> {
    match CallArgs(s, i, ScrollName)
    case None => None
    case Some(q) =>
      var ds := if CharAt(s, q, '-') then q + 1 else q;
      var e := DigitRunEnd(s, ds);
      if e == ds || !CharAt(s, e, ')') then None else Some(Captures([s[q..e]]))
  }

  /** `time\.sleep\(([\d.]+)\)` at `i`; group: the numeral. */
  function SleepAt(s: string, i: nat): Option<Captures> {
    if !OccursAt(s, TimeSleepCall, i) then None
    else
      var p := i + |TimeSleepCall|;
      var e := NumeralRunEnd(s, p);
      if e == p || !CharAt(s, e, ')') then None else Some(Captures([s[p..e]]))
  }

  /** `s.match(pattern)`: the groups of the leftmost start position at or after `i` where the pattern matches. */
  function FirstMatch(s: string, i: nat, at: (string, nat) -> Option<Captures>): (r: Option<Captures>)
    ensures r.Some? <==> exists j :: i <= j <= |s| && at(s, j).Some?
    ensures r.Some? ==> exists j :: i <= j <= |s| && at(s, j) == r && forall m :: i <= m < j ==> at(s, m).None?
    decreases |s| + 1 - i
  {
    if i > |s| then None
    else if at(s, i).Some? then at(s, i)
    else FirstMatch(s, i + 1, at)
  }

  /** `parseInt` of a numeral matched by `-?\d+`. */
  function SignedValue(t: string): int {
    if t != [] && t[0] == '-' && AllDigits(t[1..]) then -(DigitsValue(t[1..]) as int)
    else if AllDigits(t) then DigitsValue(t) as int
    else 0
  }

  function Unparsed(s: string): ParsedAction {
    ParsedAction(Unknown, None, None, [], None, None, None, s)
  }

  function Group(c: Captures, n: nat): string {
    if n < |c.groups| then c.groups[n] else ""
  }

  function NumeralValue(t: string): int {
    if AllDigits(t) then DigitsValue(t) as int else 0
  }

  function ClickType(name: string, button: string): (t: ActionType)
    ensures t == Click || t == DoubleClick || t == TripleClick || t == RightClick
  {
    if name == ClickName then (if button == "right" then RightClick else Click)
    else if name == DoubleClickName then DoubleClick
    else if name == TripleClickName then TripleClick
    else RightClick
  }

  function WithPoint(t: ActionType, c: Captures, s: string): ParsedAction {
    ParsedAction(t, Some(NumeralValue(Group(c, 0))), Some(NumeralValue(Group(c, 1))), [], None, None, None, s)
  }

  /** Which fields a parsed action fills in, by action type. */
  predicate FieldsAgreeWithType(r: ParsedAction) {
    (r.actionType == Unknown ==> r == Unparsed(r.raw))
    && (r.x.Some? <==> r.actionType in {Click, DoubleClick, TripleClick, RightClick, MouseDown, MoveTo})
    && (r.y.Some? <==> r.x.Some?)
    && (r.text.Some? <==> r.actionType == Write)
    && (r.scrollAmount.Some? <==> r.actionType == Scroll)
    && (r.sleepDuration.Some? <==> r.actionType == Sleep)
    && (r.keys != [] ==> r.actionType in {Press, Hotkey})
    && (r.actionType == Press ==> |r.keys| == 1)
  }

  /** The click rule: the click family, with `button='right'` turning a click into a right click. */
  function ClickRule(s: string): (r: Option<ParsedAction>)
    ensures r.Some? <==> FirstMatch(s, 0, ClickAt).Some?
    ensures r.Some? ==> r.value.raw == s && FieldsAgreeWithType(r.value)
    ensures r.Some? ==> r.value.actionType in {Click, DoubleClick, TripleClick, RightClick}
  {
    var m := FirstMatch(s, 0, ClickAt);
    if m.None? then None
    else
      var c := m.value;
      var t := ClickType(Group(c, 0), Group(c, 3));
      Some(ParsedAction(t, Some(NumeralValue(Group(c, 1))), Some(NumeralValue(Group(c, 2))), [], None, None, None, s))
  }

  /** The rules for calls with two coordinates and for `mouseUp()`. */
  function PointerRule(s: string): (r: Option<ParsedAction>)
    ensures r.Some? ==> r.value.raw == s && FieldsAgreeWithType(r.value)
    ensures r.Some? ==> r.value.actionType in {MouseDown, MoveTo, MouseUp}
    ensures r.None? <==> FirstMatch(s, 0, MouseDownAt).None? && FirstMatch(s, 0, MoveToAt).None?
                         && FirstMatch(s, 0, MouseUpAt).None?
  {
    var down := FirstMatch(s, 0, MouseDownAt);
    if down.Some? then Some(WithPoint(MouseDown, down.value, s))
    else
      var move := FirstMatch(s, 0, MoveToAt);
      if move.Some? then Some(WithPoint(MoveTo, move.value, s))
      else if FirstMatch(s, 0, MouseUpAt).Some? then Some(ParsedAction(MouseUp, None, None, [], None, None, None, s))
      else None
  }

  /** The rules for `press` and `hotkey`. */
  function KeyRule(s: string): (r: Option<ParsedAction>)
    ensures r.Some? ==> r.value.raw == s && FieldsAgreeWithType(r.value)
    ensures r.Some? ==> r.value.actionType in {Press, Hotkey}
    ensures r.None? <==> FirstMatch(s, 0, PressAt).None? && FirstMatch(s, 0, HotkeyAt).None?
  {
    var press := FirstMatch(s, 0, PressAt);
    if press.Some? then Some(ParsedAction(Press, None, None, [Group(press.value, 0)], None, None, None, s))
    else
      var hotkey := FirstMatch(s, 0, HotkeyAt);
      if hotkey.Some? then Some(ParsedAction(Hotkey, None, None, HotkeyKeys(Group(hotkey.value, 0), 0), None, None, None, s))
      else None
  }

  /** The rules for `write`, then `typewrite`. */
  function TextRule(s: string): (r: Option<ParsedAction>)
    ensures r.Some? ==> r.value.raw == s && FieldsAgreeWithType(r.value) && r.value.actionType == Write
    ensures r.None? <==> FirstMatch(s, 0, WriteAt).None? && FirstMatch(s, 0, TypewriteAt).None?
  {
    var write := FirstMatch(s, 0, WriteAt);
    if write.Some? then Some(ParsedAction(Write, None, None, [], Some(Group(write.value, 1)), None, None, s))
    else
      var typewrite := FirstMatch(s, 0, TypewriteAt);
      if typewrite.Some? then Some(ParsedAction(Write, None, None, [], Some(Group(typewrite.value, 1)), None, None, s))
      else None
  }

  /** The rules for `scroll`, then `time.sleep`. */
  function WaitRule(s: string): (r: Option<ParsedAction>)
    ensures r.Some? ==> r.value.raw == s && FieldsAgreeWithType(r.value) && r.value.actionType in {Scroll, Sleep}
    ensures r.None? <==> FirstMatch(s, 0, ScrollAt).None? && FirstMatch(s, 0, SleepAt).None?
  {
    var scroll := FirstMatch(s, 0, ScrollAt);
    if scroll.Some? then Some(ParsedAction(Scroll, None, None, [], None, Some(SignedValue(Group(scroll.value, 0))), None, s))
    else
      var sleep := FirstMatch(s, 0, SleepAt);
      if sleep.Some? then Some(ParsedAction(Sleep, None, None, [], None, None, Some(ParseDecimal(Group(sleep.value, 0))), s))
      else None
  }

  /** `parsePyautoguiAction(actionStr)`: the first rule that matches decides, in the order of the source. */
  function ParsePyautoguiAction(s: string): (r: ParsedAction)
    ensures r.raw == s && FieldsAgreeWithType(r)
    ensures s == "" ==> r == Unparsed(s)
    ensures s != "" && ClickRule(s).Some? ==> r == ClickRule(s).value
    ensures r.actionType == Unknown <==>
      s == "" || (ClickRule(s).None? && PointerRule(s).None? && KeyRule(s).None? && TextRule(s).None? && WaitRule(s).None?)
  {
    if s == "" then Unparsed(s)
    else if ClickRule(s).Some? then ClickRule(s).value
    else if PointerRule(s).Some? then PointerRule(s).value
    else if KeyRule(s).Some? then KeyRule(s).value
    else if TextRule(s).Some? then TextRule(s).value
    else if WaitRule(s).Some? then WaitRule(s).value
    else Unparsed(s)
  }
}
