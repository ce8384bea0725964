/**
 * The Return key in the note editor (`CommandTextView`): with Shift a plain
 * newline; otherwise markdown list continuation or list exit on the caret's
 * line; otherwise the editor's submit action.
 */
module ListContinuation {
  import opened Wrappers
  import opened Text
  import opened Patterns
  import opened TextRanges

  // ---------------------------------------------------------------------------
  // The content of a line without its trailing line feeds and carriage returns
  // ---------------------------------------------------------------------------

  predicate IsNewlineUnit(c: char) {
    c == '\n' || c == '\r'
  }

  /** The length of `line` once its trailing run of LF and CR units is dropped. */
  function ContentLength(line: String): (n: nat)
    ensures n <= |line|
    ensures forall i :: n <= i < |line| ==> IsNewlineUnit(line[i])
    ensures n == 0 || !IsNewlineUnit(line[n - 1])
  {
    if line != [] && IsNewlineUnit(line[|line| - 1]) then
      var n := ContentLength(line[..|line| - 1]);
      assert forall i :: n <= i < |line| - 1 ==> line[..|line| - 1][i] == line[i];
      n
    else |line|
  }

  /** `lineStringLengthWithoutTrailingNewlines`: counts down over the trailing LF and CR units. */
  method LineLengthWithoutTrailingNewlines(line: String) returns (length: nat)
    ensures length == ContentLength(line)
  {
    length := |line|;
    assert line[..length] == line;
    while length > 0
      invariant length <= |line|
      invariant ContentLength(line[..length]) == ContentLength(line)
    {
      var character := line[length - 1];
      if IsNewlineUnit(character) {
        assert line[..length][..length - 1] == line[..length - 1];
        length := length - 1;
      } else {
        break;
      }
    }
  }

  // ---------------------------------------------------------------------------
  // Continuations
  // ---------------------------------------------------------------------------

  /** `ListContinuation.Kind`. */
  datatype Kind =
    | Unordered(bullet: char)
    | Ordered(number: int, separator: char)
    | Task(bullet: char)

  /** `ListContinuation`: the line's content range, its kind, its indentation and whether it holds text. */
  datatype Continuation = Continuation(lineContentRange: Range, kind: Kind, indentation: String, hasContent: bool)

  /** The captured text is not blank once trimmed of white space and newlines. */
  predicate HasContent(text: String) {
    Trim(text, WhitespacesAndNewlines) != []
  }

  /**
   * `parseListContinuation`: the line is tried as a task, then as an unordered
   * item, then as an ordered item; an ordered number that `Int` cannot read
   * counts as 1.
   */
  function ParseListContinuation(lineContentRange: Range, lineContent: String): Option<Continuation> {
    match MatchBulletTask(lineContent)
    case Some(t) => Some(Continuation(lineContentRange, Task(t.bullet), t.indentation, HasContent(t.text)))
    case None =>
      match MatchUnordered(lineContent)
      case Some(u) => Some(Continuation(lineContentRange, Unordered(u.bullet), u.indentation, HasContent(u.text)))
      case None =>
        match MatchOrdered(lineContent)
        case Some(o) =>
          Some(Continuation(lineContentRange, Ordered(ParseInt(o.number).GetOr(1), o.separator), o.indentation,
            HasContent(o.text)))
        case None => None
  }

  /** The kinds a parse produces: a real bullet, a real separator, a number `Int` can hold. */
  predicate WellFormedKind(k: Kind) {
    match k
    case Unordered(b) => IsBullet(b)
    case Ordered(n, sep) => 0 <= n <= IntMax && IsOrderedSeparator(sep)
    case Task(b) => IsBullet(b)
  }

  /** Every parsed continuation has an indentation of spaces and tabs and a well-formed kind. */
  lemma ParsedContinuationWellFormed(r: Range, line: String)
    requires ParseListContinuation(r, line).Some?
    ensures var c := ParseListContinuation(r, line).value;
      c.lineContentRange == r && AllInClass(c.indentation, IndentChars) && WellFormedKind(c.kind)
  {
  }

  /** A pattern's text group is blank exactly when it is empty: it cannot start with white space. */
  lemma HasContentIff(text: String)
    requires IsTailText(text)
    ensures HasContent(text) <==> text != []
  {
    TrimEmptyIff(text, WhitespacesAndNewlines);
    if text != [] {
      assert !InSet(text[0], WhitespacesAndNewlines);
    }
  }

  /** A task line continues as a task, whatever the box's state. */
  lemma ContinuationOfTask(r: Range, indent: String, bullet: char, ws1: String, m: char, ws2: String, text: String,
      term: String)
    requires AllInClass(indent, IndentChars) && IsBullet(bullet) && AllInClass(ws1, SpaceChars) && ws1 != []
    requires IsBoxMarker(m) && AllInClass(ws2, SpaceChars)
    requires IsTailText(text) && IsEndOfInput(term)
    ensures ParseListContinuation(r, indent + [bullet] + ws1 + "[" + [m] + "]" + ws2 + text + term)
      == Some(Continuation(r, Task(bullet), indent, text != []))
  {
    MatchBulletTaskOf(indent, bullet, ws1, m, ws2, text, term);
    HasContentIff(text);
  }

  /**
   * The unordered-list pattern matches every task line whose white space after
   * the box holds no line terminator: task lines must be tried first for a task
   * line to continue as a task.
   */
  lemma TaskLineIsAlsoUnordered(indent: String, bullet: char, ws1: String, m: char, ws2: String, text: String,
      term: String)
    requires AllInClass(indent, IndentChars) && IsBullet(bullet) && AllInClass(ws1, SpaceChars) && ws1 != []
    requires IsBoxMarker(m) && AllInClass(ws2, SpaceChars) && AllInClass(ws2, NonTerminators)
    requires IsTailText(text) && IsEndOfInput(term)
    ensures MatchUnordered(indent + [bullet] + ws1 + "[" + [m] + "]" + ws2 + text + term)
      == Some(UnorderedMatch(indent, bullet, "[" + [m] + "]" + ws2 + text))
  {
    var box := "[" + [m] + "]" + ws2 + text;
    BoxTextIsTail(m, ws2, text);
    RegroupBoxText(indent + [bullet] + ws1, m, ws2, text, term);
    MatchUnorderedOf(indent, bullet, ws1, box, term);
  }

  lemma BoxTextIsTail(m: char, ws2: String, text: String)
    requires IsBoxMarker(m) && AllInClass(ws2, NonTerminators) && AllInClass(text, NonTerminators)
    ensures IsTailText("[" + [m] + "]" + ws2 + text)
  {
  }

  lemma RegroupBoxText(a: String, m: char, ws2: String, text: String, term: String)
    ensures a + "[" + [m] + "]" + ws2 + text + term == a + ("[" + [m] + "]" + ws2 + text) + term
  {
  }

  /** After the white space that follows a bullet, a text not opening with `[` leaves no task box. */
  lemma NoBoxAfter(ws: String, text: String, term: String)
    requires AllInClass(ws, SpaceChars) && IsTailText(text) && IsEndOfInput(term)
    requires text == [] || text[0] != '['
    ensures var after := ws + text + term;
      BoxTail(after[Run(after, SpaceChars)..]).None?
  {
    var after := ws + text + term;
    var w := Run(after, SpaceChars);
    if text != [] {
      AfterSpaces(ws, text, term);
      assert after[w..][0] == text[0];
    } else {
      assert after == ws + term;
      RunCovers(ws, term, SpaceChars);
      assert after[w..] == term[w - |ws|..];
      TermHasNoBracket(term, w - |ws|);
    }
    BoxTailNone(after[w..]);
  }

  lemma BoxTailNone(box: String)
    requires box == [] || box[0] != '['
    ensures BoxTail(box).None?
  {
  }

  lemma AfterSpaces(ws: String, text: String, term: String)
    requires AllInClass(ws, SpaceChars) && text != [] && !InClass(text[0], SpaceChars)
    ensures var after := ws + text + term;
      Run(after, SpaceChars) == |ws| && after[|ws|..] == text + term
  {
    Regroup3(ws, text, term);
    RunOf(ws, text + term, SpaceChars);
  }

  lemma TermHasNoBracket(term: String, k: nat)
    requires IsEndOfInput(term) && k <= |term|
    ensures term[k..] == [] || term[k..][0] != '['
  {
  }

  /** An unordered item that is not a task continues as an unordered item. */
  lemma ContinuationOfUnordered(r: Range, indent: String, bullet: char, ws: String, text: String, term: String)
    requires AllInClass(indent, IndentChars) && IsBullet(bullet) && AllInClass(ws, SpaceChars) && ws != []
    requires IsTailText(text) && IsEndOfInput(term)
    requires text == [] || text[0] != '['
    ensures ParseListContinuation(r, indent + [bullet] + ws + text + term)
      == Some(Continuation(r, Unordered(bullet), indent, text != []))
  {
    var line := indent + [bullet] + ws + text + term;
    var tail := ws + text + term;
    MatchUnorderedOf(indent, bullet, ws, text, term);
    HasContentIff(text);
    RegroupTail(indent + [bullet], ws, text, term);
    Regroup3(indent, [bullet], tail);
    IndentOf(indent, [bullet] + tail);
    assert ([bullet] + tail)[1..] == tail;
    NoBoxAfter(ws, text, term);
  }

  /** An ordered item continues as an ordered item, numbered 1 when its digits are not a 64-bit `Int`. */
  lemma ContinuationOfOrdered(r: Range, indent: String, number: String, sep: char, ws: String, text: String,
      term: String)
    requires AllInClass(indent, IndentChars) && number != [] && AllInClass(number, DigitChars)
    requires IsOrderedSeparator(sep) && AllInClass(ws, SpaceChars) && ws != []
    requires IsTailText(text) && IsEndOfInput(term)
    ensures ParseListContinuation(r, indent + number + [sep] + ws + text + term)
      == Some(Continuation(r, Ordered(ParseInt(number).GetOr(1), sep), indent, text != []))
  {
    var line := indent + number + [sep] + ws + text + term;
    assert MatchBulletTask(line).None? && MatchUnordered(line).None? by {
      OrderedLineStart(indent, number, sep, ws, text, term);
      NotBulleted(line);
    }
    assert MatchOrdered(line) == Some(OrderedMatch(indent, number, sep, text)) by {
      MatchOrderedOf(indent, number, sep, ws, text, term);
    }
    assert HasContent(text) <==> text != [] by { HasContentIff(text); }
  }

  /** A line whose first character after the indentation is neither a bullet nor a digit is not a list line. */
  lemma ContinuationNone(r: Range, indent: String, rest: String)
    requires AllInClass(indent, IndentChars) && StopsRun(rest, IndentChars)
    requires rest == [] || (!IsBullet(rest[0]) && !IsRegexDigit(rest[0]))
    ensures ParseListContinuation(r, indent + rest).None?
  {
    IndentOf(indent, rest);
  }

  /**
   * A line numbered with a non-ASCII decimal digit (here Bengali one) is an
   * ordered item: `\d` matches it and `Int` does not parse it, so it counts as number 1.
   */
  lemma NonAsciiNumberIsOrdered(r: Range)
    ensures ParseListContinuation(r, "\U{09E7}. x") == Some(Continuation(r, Ordered(1, '.'), [], true))
  {
    var number := "\U{09E7}";
    assert AllInClass(number, DigitChars) by {
      forall i | 0 <= i < |number| ensures InClass(number[i], DigitChars) {
        assert IsRegexDigit(number[0]) by { InDigitBlockAt(0x09E7, 0, 4); }
      }
    }
    assert ParseInt(number) == None by {
      assert !AllAsciiDigits(number) by { assert !IsAsciiDigit(number[0]); }
    }
    assert "\U{09E7}. x" == [] + number + ['.'] + " " + "x" + [];
    ContinuationOfOrdered(r, [], number, '.', " ", "x", []);
  }

  /** Return at the end of "১. x" continues the list with "2. ". */
  lemma NonAsciiNumberContinuesFromOne(r: Range)
    ensures ParseListContinuation(r, "\U{09E7}. x") == Some(Continuation(r, Ordered(1, '.'), [], true))
    ensures ContinuationMarker(Continuation(r, Ordered(1, '.'), [], true)) == "2. "
  {
    NonAsciiNumberIsOrdered(r);
    MarkerAfterFirst(Continuation(r, Ordered(1, '.'), [], true));
  }

  /** The marker after an unindented item 1. */
  lemma MarkerAfterFirst(c: Continuation)
    requires c.kind == Ordered(1, '.') && c.indentation == []
    ensures ContinuationMarker(c) == "2. "
  {
    assert NextNumber(1) == 2;
    assert DecimalString(2) == ['2'] by { assert DigitChar(2) == '2'; }
  }

  // ---------------------------------------------------------------------------
  // The marker a continuation inserts
  // ---------------------------------------------------------------------------

  /** The number of the next ordered item, in unbounded integers: one more than the line's, at least 1. */
  function NextNumber(n: int): nat {
    Max(n + 1, 1)
  }

  /** `continuationMarker(for:)`. */
  function ContinuationMarker(c: Continuation): String {
    match c.kind
    case Unordered(b) => c.indentation + [b] + " "
    case Ordered(n, sep) => c.indentation + DecimalString(NextNumber(n)) + [sep] + " "
    case Task(b) => c.indentation + [b] + " [ ] "
  }

  /**
   * The kind of the line a continuation starts: the same bullet, the next
   * number (1 once it no longer fits in an `Int`), an open task.
   */
  function NextKind(k: Kind): Kind {
    match k
    case Ordered(n, sep) => Ordered(if NextNumber(n) <= IntMax then NextNumber(n) else 1, sep)
    case _ => k
  }

  lemma DecimalDigits(s: String)
    requires AllAsciiDigits(s)
    ensures AllInClass(s, DigitChars)
  {
    assert forall i :: 0 <= i < |s| ==> IsAsciiDigit(s[i]);
  }

  lemma MarkerParts(indent: String, b: char)
    ensures indent + [b] + " " == indent + [b] + " " + [] + []
    ensures indent + [b] + " [ ] " == indent + [b] + " " + "[" + [' '] + "]" + " " + [] + []
  {
  }

  lemma OrderedMarkerParts(indent: String, digits: String, sep: char)
    ensures indent + digits + [sep] + " " == indent + digits + [sep] + " " + [] + []
  {
  }

  /**
   * The marker a continuation inserts is itself a list line of the same list,
   * with nothing after its marker: the same bullet, the next number, an open
   * task box.
   */
  lemma MarkerContinuesList(r: Range, c: Continuation)
    requires AllInClass(c.indentation, IndentChars) && WellFormedKind(c.kind)
    ensures ParseListContinuation(r, ContinuationMarker(c))
      == Some(Continuation(r, NextKind(c.kind), c.indentation, false))
  {
    MarkerParts(c.indentation, if c.kind.Ordered? then '.' else c.kind.bullet);
    match c.kind
    case Unordered(b) =>
      ContinuationOfUnordered(r, c.indentation, b, " ", [], []);
    case Task(b) =>
      ContinuationOfTask(r, c.indentation, b, " ", ' ', " ", [], []);
    case Ordered(n, sep) =>
      var digits := DecimalString(NextNumber(n));
      DecimalDigits(digits);
      DecimalRoundTrip(NextNumber(n));
      OrderedMarkerParts(c.indentation, digits, sep);
      ContinuationOfOrdered(r, c.indentation, digits, sep, " ", [], []);
  }

  /**
   * The next number as the source computes it, `max(number + 1, 1)` on Swift's
   * 64-bit `Int`: the addition traps (nothing) on `Int.max`.
   */
  function NextNumberAsWritten(n: int): (r: Option<int>)
    requires IntMin <= n <= IntMax
    ensures r.None? <==> n == IntMax
    ensures r.Some? ==> r.value == NextNumber(n)
  {
    if n + 1 > IntMax then None else Some(Max(n + 1, 1))
  }

  /** An ordered item numbered `Int.max` parses as that number, and continuing it traps. */
  lemma LargestNumberTraps(r: Range, indent: String, sep: char, ws: String, text: String, term: String)
    requires AllInClass(indent, IndentChars) && IsOrderedSeparator(sep) && AllInClass(ws, SpaceChars) && ws != []
    requires IsTailText(text) && IsEndOfInput(term)
    ensures var c := ParseListContinuation(r, indent + DecimalString(IntMax) + [sep] + ws + text + term);
      c.Some? && c.value.kind == Ordered(IntMax, sep) && NextNumberAsWritten(c.value.kind.number).None?
  {
    var digits := DecimalString(IntMax);
    DecimalDigits(digits);
    DecimalRoundTrip(IntMax);
    ContinuationOfOrdered(r, indent, digits, sep, ws, text, term);
  }

  // ---------------------------------------------------------------------------
  // Return on the caret's line
  // ---------------------------------------------------------------------------

  /** The content range of the line holding `loc`: its line range without the trailing LF and CR units. */
  function LineContentRangeAt(text: String, loc: int): (r: Range)
    requires 0 <= loc <= |text|
    ensures InBounds(text, r) && r.location == LineRangeAt(text, loc).location
    ensures r.End() <= LineRangeAt(text, loc).End()
  {
    var lineRange := LineRangeAt(text, loc);
    Range(lineRange.location, ContentLength(Substring(text, lineRange)))
  }

  /**
   * The continuation Return acts on: none unless the selection is an empty caret
   * within the text, at the end of its line's content, on a list line.
   */
  function ContinuationAt(text: String, selection: Range): (r: Option<Continuation>)
    ensures r.Some? ==> (selection.length == 0 && InBounds(text, selection)
      && r.value.lineContentRange == LineContentRangeAt(text, selection.location)
      && r.value.lineContentRange.End() == selection.location)
  {
    if selection.length != 0 || !(0 <= selection.location <= |text|) then None
    else
      var content := LineContentRangeAt(text, selection.location);
      if selection.location != content.End() then None
      else ParseListContinuation(content, Substring(text, content))
  }

  /** What Return leaves when the list handler takes it: the new text and selection. */
  datatype Outcome = Declined | Handled(text: String, selection: Range)

  /**
   * `handleListEnter`: on a list line with text, a line break and the next
   * marker inserted at the caret, with the caret after them; on a list item
   * with no text, its content removed and the caret where it began.
   * `allowChange` is the text view's answer to
   * `shouldChangeText(in:replacementString:)` for that removal; when it refuses,
   * the key is still taken and nothing changes.
   */
  function ListEnter(text: String, selection: Range, allowChange: bool): (r: Outcome)
    ensures r.Handled? ==> InBounds(r.text, r.selection) && r.selection.length == 0
  {
    match ContinuationAt(text, selection)
    case None => Declined
    case Some(c) =>
      if c.hasContent then
        var inserted := "\n" + ContinuationMarker(c);
        Handled(ReplaceRange(text, selection, inserted), Range(selection.location + |inserted|, 0))
      else if !allowChange then Handled(text, selection)
      else Handled(ReplaceRange(text, c.lineContentRange, ""), Range(c.lineContentRange.location, 0))
  }

  /**
   * A position in a line is the end of its content exactly when only LF and CR
   * follow it and no LF or CR comes just before it.
   */
  lemma ContentEndIff(line: String, j: nat)
    requires j <= |line|
    ensures j == ContentLength(line) <==>
      (forall k :: j <= k < |line| ==> IsNewlineUnit(line[k])) && (j == 0 || !IsNewlineUnit(line[j - 1]))
  {
    var n := ContentLength(line);
    // Only LF and CR follow the content's end, so a position after it follows an LF or CR.
    assert j > 0 && j - 1 >= n ==> IsNewlineUnit(line[j - 1]);
  }

  /**
   * The caret is at the end of its line's content exactly when everything from
   * it to the end of the line is LF or CR, and it does not itself follow an LF
   * or CR of the same line.
   */
  lemma AtContentEndIff(text: String, loc: int)
    requires 0 <= loc <= |text|
    ensures var line := LineRangeAt(text, loc);
      loc == LineContentRangeAt(text, loc).End() <==>
        (forall k :: loc <= k < line.End() ==> IsNewlineUnit(text[k]))
        && (loc == line.location || !IsNewlineUnit(text[loc - 1]))
  {
    var line := LineRangeAt(text, loc);
    var sub := Substring(text, line);
    var j := loc - line.location;
    ContentEndIff(sub, j);
    NewlinesShifted(text, line, j);
    assert j > 0 ==> sub[j - 1] == text[loc - 1];
  }

  /** The LF and CR units of a range of `text` are those of its substring, shifted by its start. */
  lemma NewlinesShifted(text: String, line: Range, j: nat)
    requires InBounds(text, line) && j <= line.length
    ensures var sub := Substring(text, line);
      (forall k :: j <= k < |sub| ==> IsNewlineUnit(sub[k]))
        <==> (forall k :: line.location + j <= k < line.End() ==> IsNewlineUnit(text[k]))
  {
    var sub := Substring(text, line);
    if forall k :: j <= k < |sub| ==> IsNewlineUnit(sub[k]) {
      forall k | line.location + j <= k < line.End() ensures IsNewlineUnit(text[k]) {
        assert text[k] == sub[k - line.location];
      }
    }
    if forall k :: line.location + j <= k < line.End() ==> IsNewlineUnit(text[k]) {
      forall k | j <= k < |sub| ensures IsNewlineUnit(sub[k]) {
        assert sub[k] == text[line.location + k];
      }
    }
  }

  /** Return on a list line with text inserts a line break and the next marker at the caret, and moves past them. */
  lemma ListEnterContinues(text: String, selection: Range, allowChange: bool, c: Continuation)
    requires ContinuationAt(text, selection) == Some(c) && c.hasContent
    ensures var marker := ContinuationMarker(c);
      var loc := selection.location;
      ListEnter(text, selection, allowChange)
        == Handled(text[..loc] + "\n" + marker + text[loc..], Range(loc + 1 + |marker|, 0))
  {
    InsertBreakAt(text, selection.location, ContinuationMarker(c));
  }

  /** Inserting a line break and `m` at a caret puts them between the text before and after it. */
  lemma InsertBreakAt(text: String, loc: int, m: String)
    requires 0 <= loc <= |text|
    ensures ReplaceRange(text, Range(loc, 0), "\n" + m) == text[..loc] + "\n" + m + text[loc..]
  {
    Regroup3(text[..loc], "\n", m);
  }

  /**
   * Return on a list item with no text removes the line's content and leaves the
   * caret at the start of the line; the text before and after the content stays.
   */
  lemma ListEnterExits(text: String, selection: Range, c: Continuation)
    requires ContinuationAt(text, selection) == Some(c) && !c.hasContent
    ensures var start := c.lineContentRange.location;
      ListEnter(text, selection, true) == Handled(text[..start] + text[selection.location..], Range(start, 0))
  {
  }

  // ---------------------------------------------------------------------------
  // Return twice
  // ---------------------------------------------------------------------------

  predicate NoSeparator(s: String) {
    forall i :: 0 <= i < |s| ==> !IsLineSeparator(s[i])
  }

  lemma NoSeparatorConcat(a: String, b: String)
    requires NoSeparator(a) && NoSeparator(b)
    ensures NoSeparator(a + b)
  {
    assert forall i :: |a| <= i < |a + b| ==> (a + b)[i] == b[i - |a|];
  }

  lemma IndentNoSeparator(s: String)
    requires AllInClass(s, IndentChars)
    ensures NoSeparator(s)
  {
    assert forall i :: 0 <= i < |s| ==> InClass(s[i], IndentChars);
  }

  lemma DigitsNoSeparator(s: String)
    requires AllAsciiDigits(s)
    ensures NoSeparator(s)
  {
    assert forall i :: 0 <= i < |s| ==> IsAsciiDigit(s[i]);
  }

  /** A marker stays on one line and ends in a space. */
  lemma MarkerShape(c: Continuation)
    requires AllInClass(c.indentation, IndentChars) && WellFormedKind(c.kind)
    ensures var m := ContinuationMarker(c);
      NoSeparator(m) && m != [] && m[|m| - 1] == ' '
  {
    var m := ContinuationMarker(c);
    IndentNoSeparator(c.indentation);
    match c.kind
    case Unordered(b) =>
      NoSeparatorConcat(c.indentation, [b] + " ");
      assert m == c.indentation + ([b] + " ");
    case Task(b) =>
      NoSeparatorConcat(c.indentation, [b] + " [ ] ");
      assert m == c.indentation + ([b] + " [ ] ");
    case Ordered(n, sep) =>
      var digits := DecimalString(NextNumber(n));
      DigitsNoSeparator(digits);
      NoSeparatorConcat(c.indentation, digits);
      NoSeparatorConcat(c.indentation + digits, [sep] + " ");
      assert m == c.indentation + digits + ([sep] + " ");
  }

  /** Where a line ends depends only on the text from the start of the search on. */
  lemma {:induction false} LineEndAfter(p: String, b: String, j: nat)
    requires j <= |b|
    ensures LineEnd(p + b, |p| + j) == |p| + LineEnd(b, j)
    decreases |b| - j
  {
    if j < |b| {
      var t := p + b;
      assert t[|p| + j] == b[j];
      assert j + 1 < |b| ==> t[|p| + j + 1] == b[j + 1];
      assert LineEndsAt(t, |p| + j + 1) <==> LineEndsAt(b, j + 1);
      LineEndAfter(p, b, j + 1);
    }
  }

  /** A line made of LF and CR units after a text not ending in one has that text as its content. */
  lemma ContentLengthOf(a: String, x: String)
    requires a != [] && !IsNewlineUnit(a[|a| - 1])
    requires forall k :: 0 <= k < |x| ==> IsNewlineUnit(x[k])
    ensures ContentLength(a + x) == |a|
  {
    ContentEndIff(a + x, |a|);
    assert forall k :: |a| <= k < |a + x| ==> (a + x)[k] == x[k - |a|];
    assert (a + x)[|a| - 1] == a[|a| - 1];
  }

  /**
   * In `a + "\n" + m + b`, with `m` on one line and not ending in LF or CR, and
   * `b` starting with its line's terminator, the caret right after `m` ends a
   * line whose content is exactly `m`.
   */
  lemma CaretAfterBreak(a: String, m: String, b: String, loc: int)
    requires loc == |a| && NoSeparator(m) && m != [] && !IsNewlineUnit(m[|m| - 1])
    requires TerminatorOnly(b)
    ensures ContentLineAt(a + "\n" + m + b, loc + 1, m)
  {
    var t := a + "\n" + m + b;
    var n := LineEnd(b, 0);
    SpliceSlices(a, m, b, n);
    LineStartAfterBreak(a, m, b, loc);
    LineEndAfter(a + "\n" + m, b, 0);
    assert forall k :: 0 <= k < |b[..n]| ==> IsNewlineUnit(b[..n][k]) by {
      forall k | 0 <= k < |b[..n]| ensures IsNewlineUnit(b[..n][k]) {
        assert b[..n][k] == b[k];
      }
    }
    ContentLengthOf(m, b[..n]);
    CaretLineContent(t, loc + 1, m, b[..n]);
  }

  /**
   * When the line through `start + |m|` runs from `start` over `m` and then a
   * terminator `x` that does not count as content, its content is `m`.
   */
  lemma CaretLineContent(t: String, start: int, m: String, x: String)
    requires 0 <= start && start + |m| + |x| <= |t|
    requires LineStart(t, start + |m|) == start && LineEnd(t, start + |m|) == start + |m| + |x|
    requires t[start..start + |m| + |x|] == m + x && ContentLength(m + x) == |m|
    ensures ContentLineAt(t, start, m)
  {
    var line := LineRangeAt(t, start + |m|);
    assert line == Range(start, |m| + |x|);
    assert Substring(t, line) == m + x;
    assert Substring(t, Range(start, |m|)) == m by {
      assert t[start..start + |m|] == (m + x)[..|m|];
    }
    ContentLineFrom(t, start, m);
  }

  /** The content of the line through `start + |m|` is `m` when its line starts at `start` and its content has `m`'s length. */
  lemma ContentLineFrom(t: String, start: int, m: String)
    requires 0 <= start && start + |m| <= |t|
    requires LineRangeAt(t, start + |m|).location == start
    requires ContentLength(Substring(t, LineRangeAt(t, start + |m|))) == |m|
    requires Substring(t, Range(start, |m|)) == m
    ensures ContentLineAt(t, start, m)
  {
  }

  /** The line of the caret after `m` starts right after the line break. */
  lemma LineStartAfterBreak(a: String, m: String, b: String, loc: int)
    requires loc == |a| && NoSeparator(m)
    ensures LineStart(a + "\n" + m + b, loc + 1 + |m|) == loc + 1
  {
    var t := a + "\n" + m + b;
    var caret := loc + 1 + |m|;
    assert t[loc] == '\n';
    assert forall i :: loc + 1 <= i < caret ==> t[i] == m[i - 1 - loc];
    LineStartIs(t, caret, loc + 1);
  }

  /** The pieces of `a + "\n" + m + b`. */
  lemma SpliceSlices(a: String, m: String, b: String, n: nat)
    requires n <= |b|
    ensures var t := a + "\n" + m + b;
      t == (a + "\n" + m) + b
      && t[..|a| + 1] == a + "\n"
      && t[|a| + 1..|a| + 1 + |m|] == m
      && t[|a| + 1 + |m|..] == b
      && t[|a| + 1..|a| + 1 + |m| + n] == m + b[..n]
  {
  }

  /** From `b` on, the line holds only its terminator: LF and CR units up to the line's end. */
  predicate TerminatorOnly(b: String) {
    forall k :: 0 <= k < LineEnd(b, 0) ==> IsNewlineUnit(b[k])
  }

  /** The caret `start + |m|` ends a line whose content is exactly `m`, starting at `start`. */
  predicate ContentLineAt(t: String, start: int, m: String) {
    0 <= start && start + |m| <= |t|
    && LineContentRangeAt(t, start + |m|) == Range(start, |m|)
    && Substring(t, Range(start, |m|)) == m
  }

  /** The text after a caret at the end of its line's content, up to the end of the line, is LF and CR only. */
  lemma RestOfLine(text: String, loc: int)
    requires 0 <= loc <= |text| && loc == LineContentRangeAt(text, loc).End()
    ensures TerminatorOnly(text[loc..])
  {
    assert forall k :: loc <= k < LineEnd(text, loc) ==> IsNewlineUnit(text[k]) by {
      AtContentEndIff(text, loc);
    }
    TerminatorFrom(text, loc);
  }

  /** LF and CR units from `loc` to the end of its line make `text[loc..]` start with its terminator only. */
  lemma TerminatorFrom(text: String, loc: int)
    requires 0 <= loc <= |text|
    requires forall k :: loc <= k < LineEnd(text, loc) ==> IsNewlineUnit(text[k])
    ensures TerminatorOnly(text[loc..])
  {
    var a := text[..loc];
    var b := text[loc..];
    assert text == a + b;
    LineEndAfter(a, b, 0);
    assert forall k :: 0 <= k < |b| ==> b[k] == text[loc + k];
  }

  /** The list item at a caret is read from the content range of the caret's line. */
  lemma ContinuationAtCaret(t: String, caret: int, r: Range, m: String, c: Continuation)
    requires 0 <= caret <= |t| && LineContentRangeAt(t, caret) == r && r.End() == caret
    requires Substring(t, r) == m && ParseListContinuation(r, m) == Some(c)
    ensures ContinuationAt(t, Range(caret, 0)) == Some(c)
  {
  }

  /** A caret at the end of a line whose content is a marker is on an item of the next kind with no text. */
  lemma MarkerAtCaret(t: String, caret: int, r: Range, c: Continuation)
    requires 0 <= caret <= |t| && LineContentRangeAt(t, caret) == r && r.End() == caret
    requires Substring(t, r) == ContinuationMarker(c)
    requires AllInClass(c.indentation, IndentChars) && WellFormedKind(c.kind)
    ensures ContinuationAt(t, Range(caret, 0)) == Some(Continuation(r, NextKind(c.kind), c.indentation, false))
  {
    MarkerContinuesList(r, c);
    ContinuationAtCaret(t, caret, r, ContinuationMarker(c), Continuation(r, NextKind(c.kind), c.indentation, false));
  }

  /**
   * A line break and a marker inserted at the end of a line's content make a
   * new line whose content is exactly the marker.
   */
  lemma MarkerLineAfterBreak(text: String, loc: int, c: Continuation)
    requires 0 <= loc <= |text| && loc == LineContentRangeAt(text, loc).End()
    requires AllInClass(c.indentation, IndentChars) && WellFormedKind(c.kind)
    ensures ContentLineAt(text[..loc] + "\n" + ContinuationMarker(c) + text[loc..], loc + 1, ContinuationMarker(c))
  {
    var m := ContinuationMarker(c);
    assert NoSeparator(m) && m != [] && !IsNewlineUnit(m[|m| - 1]) by { MarkerShape(c); }
    assert TerminatorOnly(text[loc..]) by { RestOfLine(text, loc); }
    CaretAfterBreak(text[..loc], m, text[loc..], loc);
  }

  // ---------------------------------------------------------------------------
  // The text view
  // ---------------------------------------------------------------------------

  /** The commands `doCommand(by:)` tells apart. */
  datatype Command = InsertNewline | CancelOperation | OtherCommand

  /** What the view does with a command. */
  datatype Response =
    | PlainNewline  // `insertNewlineIgnoringFieldEditor`
    | ListEdit      // the list handler took the key
    | Submit        // `onSubmit`
    | Cancel        // `onCancel`
    | PassedOn      // `super.doCommand(by:)`

  /** `CommandTextView`: the editor's text and its selection. */
  class CommandTextView {
    var text: String
    var selection: Range

    /** The selection lies within the text, as the text view keeps it. */
    predicate Valid()
      reads this
    {
      InBounds(text, selection)
    }

    constructor (text: String, selection: Range)
      ensures this.text == text && this.selection == selection
    {
      this.text := text;
      this.selection := selection;
    }

    /** `handleListEnter`. */
    method HandleListEnter(allowChange: bool) returns (handled: bool)
      modifies this
      ensures handled <==> ListEnter(old(text), old(selection), allowChange).Handled?
      ensures handled ==> (text == ListEnter(old(text), old(selection), allowChange).text
        && selection == ListEnter(old(text), old(selection), allowChange).selection)
      ensures !handled ==> text == old(text) && selection == old(selection)
    {
      var current := selection;
      if current.length != 0 {
        return false;
      }
      if !(0 <= current.location <= |text|) {
        return false;
      }
      var lineRange := LineRangeAt(text, current.location);
      var lineString := Substring(text, lineRange);
      var contentLength := LineLengthWithoutTrailingNewlines(lineString);
      var lineContentRange := Range(lineRange.location, contentLength);
      if current.location != lineContentRange.End() {
        return false;
      }
      var lineContent := Substring(text, lineContentRange);
      var continuation := ParseListContinuation(lineContentRange, lineContent);
      if continuation.None? {
        return false;
      }
      var c := continuation.value;
      if c.hasContent {
        var marker := ContinuationMarker(c);
        var inserted := "\n" + marker;
        text := ReplaceRange(text, current, inserted);
        selection := Range(current.location + |inserted|, 0);
      } else {
        if !allowChange {
          return true;
        }
        text := ReplaceRange(text, c.lineContentRange, "");
        selection := Range(c.lineContentRange.location, 0);
      }
      return true;
    }

    /**
     * `doCommand(by:)`: Return with Shift inserts a plain line break; Return
     * without it goes to the list handler and, when that declines, submits;
     * Escape cancels; every other command goes on to the text view.
     */
    method DoCommand(command: Command, shiftHeld: bool, allowChange: bool) returns (response: Response)
      requires Valid()
      modifies this
      ensures Valid()
      ensures command.InsertNewline? && shiftHeld ==> (response == PlainNewline
        && text == ReplaceRange(old(text), old(selection), "\n") && selection == Range(old(selection).location + 1, 0))
      ensures command.InsertNewline? && !shiftHeld ==>
        var r := ListEnter(old(text), old(selection), allowChange);
        if r.Handled? then response == ListEdit && text == r.text && selection == r.selection
        else response == Submit && text == old(text) && selection == old(selection)
      ensures command.CancelOperation? ==> response == Cancel && text == old(text) && selection == old(selection)
      ensures command.OtherCommand? ==> response == PassedOn && text == old(text) && selection == old(selection)
    {
      match command
      case InsertNewline =>
        if shiftHeld {
          text := ReplaceRange(text, selection, "\n");
          selection := Range(selection.location + 1, 0);
          response := PlainNewline;
        } else {
          var handled := HandleListEnter(allowChange);
          response := if handled then ListEdit else Submit;
        }
      case CancelOperation =>
        response := Cancel;
      case OtherCommand =>
        response := PassedOn;
    }
  }
}
