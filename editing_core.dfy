/**
 * The markdown editing engine (`MarkdownEditingCore`): formatting actions that
 * take a text and a selection and return a new text and selection, and the
 * task-line scanner and toggle used by the rendered note view.
 */
module EditingCore {
  import opened Text
  import opened Wrappers
  import opened Patterns
  import opened TextRanges

  /** The toolbar's formatting actions (`MarkdownFormatAction`). */
  datatype FormatAction =
    | Bold | Italic | Underline | Strikethrough
    | Heading1 | Heading2 | Heading3
    | BulletList | NumberedList | TaskList
  {
    predicate IsInline() {
      Bold? || Italic? || Underline? || Strikethrough?
    }

    /** The marker an inline action wraps the selection in. */
    function Marker(): String
      requires IsInline()
    {
      match this
      case Bold => "**"
      case Italic => "*"
      case Underline => "__"
      case Strikethrough => "~~"
    }

    /** The line transform a line action applies. */
    function LineActionOf(): LineAction
      requires !IsInline()
    {
      match this
      case Heading1 => Heading(1)
      case Heading2 => Heading(2)
      case Heading3 => Heading(3)
      case BulletList => Bulleted
      case NumberedList => Numbered
      case TaskList => Tasks
    }
  }

  /** A text together with its selection, as every action returns them. */
  datatype Edit = Edit(text: String, selection: Range)

  // ---------------------------------------------------------------------------
  // Selection clamping
  // ---------------------------------------------------------------------------

  /** `clamped(_:maxLength:)`: the range pulled inside `[0, maxLength]`. */
  function Clamped(r: Range, maxLength: nat): (c: Range)
    ensures 0 <= c.location <= maxLength && 0 <= c.length <= maxLength - c.location
    ensures 0 <= r.location <= maxLength ==> c.location == r.location
    ensures 0 <= r.location && 0 <= r.length && r.End() <= maxLength ==> c == r
  {
    var location := Min(Max(r.location, 0), maxLength);
    Range(location, Min(Max(r.length, 0), maxLength - location))
  }

  /** Clamping a clamped range changes nothing. */
  lemma ClampedIdempotent(r: Range, maxLength: nat)
    ensures Clamped(Clamped(r, maxLength), maxLength) == Clamped(r, maxLength)
  {
  }

  // ---------------------------------------------------------------------------
  // Inline wraps
  // ---------------------------------------------------------------------------

  /** What an inline action inserts at a caret, between two markers. */
  const Placeholder: String := "text"

  /** What goes between the markers: the selected text, or the placeholder when nothing is selected. */
  function Inserted(text: String, range: Range): (w: String)
    requires InBounds(text, range)
    ensures range.length > 0 ==> w == Substring(text, range)
    ensures range.length == 0 ==> w == Placeholder
  {
    if range.length > 0 then Substring(text, range) else Placeholder
  }

  /**
   * `applyInline`: the clamped selection is replaced by the marker, the
   * inserted text and the marker, and the inserted text is selected.
   */
  function ApplyInline(marker: String, text: String, selection: Range): Edit
  {
    Wrap(marker, text, Clamped(selection, |text|))
  }

  /** The wrap of an in-bounds range. */
  function Wrap(marker: String, text: String, range: Range): Edit
    requires InBounds(text, range)
  {
    var inserted := Inserted(text, range);
    Edit(ReplaceRange(text, range, marker + inserted + marker), Range(range.location + |marker|, |inserted|))
  }

  /**
   * The new text is `before ++ marker ++ inserted ++ marker ++ after`, where
   * `before` and `after` are the text around the range, and the new selection
   * covers exactly the inserted text: the old selection when it was non-empty,
   * the placeholder "text" otherwise.
   */
  lemma WrapShape(marker: String, text: String, c: Range)
    requires InBounds(text, c)
    ensures var r := Wrap(marker, text, c);
      r.text == text[..c.location] + marker + Inserted(text, c) + marker + text[c.End()..]
      && r.selection == Range(c.location + |marker|, |Inserted(text, c)|)
      && InBounds(r.text, r.selection)
      && Substring(r.text, r.selection) == Inserted(text, c)
  {
    var inserted := Inserted(text, c);
    var w := marker + inserted + marker;
    ReplaceRangeShape(text, c, w, |marker|, |inserted|);
    MiddleOf(marker, inserted, marker);
    RegroupReplacement(text[..c.location], marker, inserted, marker, text[c.End()..]);
  }

  /**
   * Replacing the markers and the inserted text by what the range held gives
   * the original text back.
   */
  lemma WrapUndo(marker: String, text: String, c: Range)
    requires InBounds(text, c)
    ensures var r := Wrap(marker, text, c);
      var span := Range(c.location, |marker| + |Inserted(text, c)| + |marker|);
      InBounds(r.text, span) && ReplaceRange(r.text, span, Substring(text, c)) == text
  {
    var inserted := Inserted(text, c);
    var w := marker + inserted + marker;
    var out := ReplaceRange(text, c, w);
    var span := Range(c.location, |w|);
    ReplaceRangeShape(text, c, w, 0, 0);
    ReplaceRangeShape(out, span, Substring(text, c), 0, 0);
    assert out[..c.location] == text[..c.location];
    assert out[span.End()..] == text[c.End()..];
    ReplaceRangeIdentity(text, c);
  }

  /** `applyInline` in full: the shape of the new text and selection, and the undo, for the clamped selection. */
  lemma ApplyInlineWraps(marker: String, text: String, selection: Range)
    ensures var c := Clamped(selection, |text|);
      var r := ApplyInline(marker, text, selection);
      var span := Range(c.location, |marker| + |Inserted(text, c)| + |marker|);
      r.text == text[..c.location] + marker + Inserted(text, c) + marker + text[c.End()..]
      && r.selection == Range(c.location + |marker|, |Inserted(text, c)|)
      && InBounds(r.text, r.selection)
      && Substring(r.text, r.selection) == Inserted(text, c)
      && InBounds(r.text, span) && ReplaceRange(r.text, span, Substring(text, c)) == text
  {
    var c := Clamped(selection, |text|);
    assert ApplyInline(marker, text, selection) == Wrap(marker, text, c);
    WrapShape(marker, text, c);
    WrapUndo(marker, text, c);
  }

  // ---------------------------------------------------------------------------
  // Line transforms
  // ---------------------------------------------------------------------------

  /** The per-line transform of a line action. */
  datatype LineAction = Heading(level: nat) | Bulleted | Numbered | Tasks

  /** `String(repeating: "#", count: n)`. */
  function Hashes(n: nat): (r: String)
    ensures |r| == n && AllInClass(r, HashChars)
  {
    seq(n, _ => '#')
  }

  /** The text an action inserts into an empty document (`emptyTextInsertion`). */
  function Template(a: LineAction): String {
    match a
    case Heading(level) => Hashes(level) + " "
    case Bulleted => "- "
    case Numbered => "1. "
    case Tasks => "- [ ] "
  }

  /** A line that trims to nothing. */
  predicate IsBlank(line: String) {
    Trim(line, WhitespacesAndNewlines) == []
  }

  /** `leadingIndent(in:)`: the longest prefix of spaces and tabs. */
  function LeadingIndent(line: String): (r: String)
    ensures |r| <= |line| && r == line[..|r|]
    ensures AllInClass(r, IndentChars) && StopsRun(line[|r|..], IndentChars)
  {
    line[..Run(line, IndentChars)]
  }

  /** The content after the leading indentation. */
  function Content(line: String): String {
    line[|LeadingIndent(line)|..]
  }

  /** Removes a leading `#{1,6}\s+`, if there is one. */
  function StripHeadingMark(content: String): (r: String)
    ensures |r| <= |content| && r == content[|content| - |r|..]
  {
    match HeadingMarkLength(content)
    case Some(n) => content[n..]
    case None => content
  }

  /** Removes a leading `\d+\.\s+`, if there is one. */
  function StripNumberMark(content: String): (r: String)
    ensures |r| <= |content| && r == content[|content| - |r|..]
  {
    match NumberMarkLength(content)
    case Some(n) => content[n..]
    case None => content
  }

  /**
   * The content part of `stripLinePrefix`: one heading mark, then one number
   * mark, then either one task box or one "- " removed.
   */
  function StripMarks(content: String): String
  {
    var c := StripNumberMark(StripHeadingMark(content));
    match TaskBoxLength(c)
    case Some(n) => c[n..]
    case None => if HasPrefix(c, "- ") then c[2..] else c
  }

  /** A tail of a string has none of the characters the string has none of. */
  lemma NoneInTail(s: String, k: nat, cs: CharSet)
    requires k <= |s| && NoneIn(s, cs)
    ensures NoneIn(s[k..], cs)
  {
    assert forall i :: 0 <= i < |s| - k ==> s[k..][i] == s[k + i];
  }

  /** Removing marks keeps a line free of a character it was free of. */
  lemma StripMarksFree(content: String, cs: CharSet)
    requires NoneIn(content, cs)
    ensures NoneIn(StripMarks(content), cs)
  {
    var h := StripHeadingMark(content);
    NoneInTail(content, |content| - |h|, cs);
    var c := StripNumberMark(h);
    NoneInTail(h, |h| - |c|, cs);
    match TaskBoxLength(c)
    case Some(n) => NoneInTail(c, n, cs);
    case None => if HasPrefix(c, "- ") { NoneInTail(c, 2, cs); }
  }

  /** `stripLinePrefix`: the indentation, and the content with its list marks removed. */
  function StripLinePrefix(line: String): (r: (String, String))
  {
    (LeadingIndent(line), StripMarks(Content(line)))
  }

  /** The heading transform: indentation, the level's hashes and a space, then the content without its old heading mark. */
  function HeadingLine(level: nat, line: String): String {
    LeadingIndent(line) + Hashes(level) + " " + StripHeadingMark(Content(line))
  }

  /** The actions that build lists. */
  predicate IsList(a: LineAction) {
    !a.Heading?
  }

  /** The mark a list action puts after the indentation; `number` is the numbered list's counter. */
  function ListPrefix(a: LineAction, number: nat): String
    requires IsList(a)
  {
    match a
    case Bulleted => "- "
    case Numbered => DecimalString(number) + ". "
    case Tasks => "- [ ] "
  }

  /**
   * The transform of one line. `number` is the numbered list's running
   * counter, which the other actions ignore. The list actions leave blank
   * lines alone; the heading does not.
   */
  function TransformLine(a: LineAction, line: String, number: nat): String {
    if a.Heading? then HeadingLine(a.level, line)
    else if IsBlank(line) then line
    else StripLinePrefix(line).0 + ListPrefix(a, number) + StripLinePrefix(line).1
  }

  /** Only the numbered list reads the counter. */
  lemma TransformLineIgnoresNumber(a: LineAction, line: String, m: nat, n: nat)
    requires !a.Numbered?
    ensures TransformLine(a, line, m) == TransformLine(a, line, n)
  {
  }

  /** The number of non-blank lines. */
  function NonBlankCount(lines: seq<String>): (n: nat)
    ensures n <= |lines|
  {
    if lines == [] then 0
    else NonBlankCount(lines[..|lines| - 1]) + (if IsBlank(lines[|lines| - 1]) then 0 else 1)
  }

  /** The counter value in effect when line `i` is transformed: one more than the non-blank lines before it. */
  function NumberAt(lines: seq<String>, i: nat): nat
    requires i <= |lines|
  {
    1 + NonBlankCount(lines[..i])
  }

  /** The counter advances past a non-blank line and stays put on a blank one. */
  lemma NumberAtStep(lines: seq<String>, i: nat)
    requires i < |lines|
    ensures NumberAt(lines, i + 1) == NumberAt(lines, i) + (if IsBlank(lines[i]) then 0 else 1)
  {
    assert lines[..i + 1][..i] == lines[..i];
  }

  /** Every line passed through `f` together with the counter of its position. */
  function MapCounted(f: (String, nat) -> String, lines: seq<String>): (r: seq<String>)
    ensures |r| == |lines|
    ensures forall i :: 0 <= i < |lines| ==> r[i] == f(lines[i], NumberAt(lines, i))
  {
    seq(|lines|, i requires 0 <= i < |lines| => f(lines[i], NumberAt(lines, i)))
  }

  /** Every line transformed, with the counter of its position. */
  function TransformedLines(a: LineAction, lines: seq<String>): (r: seq<String>)
    ensures |r| == |lines|
    ensures forall i :: 0 <= i < |lines| ==> r[i] == TransformLine(a, lines[i], NumberAt(lines, i))
  {
    MapCounted(LineTransform(a), lines)
  }

  /** The transform of an action as the function `applyToSelectedLines` applies to each line. */
  function LineTransform(a: LineAction): (String, nat) -> String {
    (line: String, number: nat) => TransformLine(a, line, number)
  }

  // ---------------------------------------------------------------------------
  // The covering line range
  // ---------------------------------------------------------------------------

  /**
   * `selectedLineRange(in:selection:)`: from the start of the line holding the
   * first selected character to the end of the line holding the last one,
   * terminators included. A caret counts as selecting the character after it
   * (the last one at the end of the text).
   */
  function SelectedLineRange(t: String, sel: Range): (r: Range)
    requires InBounds(t, sel)
    ensures InBounds(t, r)
  {
    if |t| == 0 then Range(0, 0)
    else
      var startLocation := Min(Max(sel.location, 0), Max(|t| - 1, 0));
      var startLine := LineRangeAt(t, startLocation);
      if sel.length == 0 then startLine
      else
        var rawEnd := sel.location + sel.length - 1;
        var endLocation := Min(Max(rawEnd, 0), Max(|t| - 1, 0));
        var endLine := LineRangeAt(t, endLocation);
        Range(startLine.location, endLine.End() - startLine.location)
  }

  /** The offset of the first character a selection covers, and of the last. */
  function FirstCovered(t: String, sel: Range): int
    requires InBounds(t, sel) && |t| > 0
  {
    Min(sel.location, |t| - 1)
  }

  function LastCovered(t: String, sel: Range): int
    requires InBounds(t, sel) && |t| > 0
  {
    if sel.length == 0 then FirstCovered(t, sel) else sel.End() - 1
  }

  /**
   * The covering range contains the selection, starts at a line start and ends
   * at a line end (or the text's ends), and holds no more lines than those of
   * the first and last covered characters.
   */
  lemma SelectedLineRangeCovers(t: String, sel: Range)
    requires InBounds(t, sel) && |t| > 0
    ensures var r := SelectedLineRange(t, sel);
      r.location <= sel.location && sel.End() <= r.End()
      && (r.location == 0 || LineEndsAt(t, r.location))
      && (r.End() == |t| || LineEndsAt(t, r.End()))
      && (forall k :: r.location < k <= FirstCovered(t, sel) ==> !LineEndsAt(t, k))
      && (forall k :: LastCovered(t, sel) < k < r.End() ==> !LineEndsAt(t, k))
  {
    var first := FirstCovered(t, sel);
    var last := LastCovered(t, sel);
    SelectedLineRangeBounds(t, sel);
    var start := LineStart(t, first);
    var end := LineEnd(t, last);
    LineStartIsLast(t, first);
    LineEndIsFirst(t, last);
    assert start <= sel.location;
    assert sel.End() <= end;
  }

  /** The covering range runs from the start of the first covered character's line to the end of the last one's. */
  lemma SelectedLineRangeBounds(t: String, sel: Range)
    requires InBounds(t, sel) && |t| > 0
    ensures 0 <= FirstCovered(t, sel) <= LastCovered(t, sel) < |t|
    ensures SelectedLineRange(t, sel)
      == Range(LineStart(t, FirstCovered(t, sel)), LineEnd(t, LastCovered(t, sel)) - LineStart(t, FirstCovered(t, sel)))
  {
  }

  // ---------------------------------------------------------------------------
  // Applying a line action
  // ---------------------------------------------------------------------------

  /** The lines of a text: split at "\n", empty pieces kept. */
  function Lines(text: String): (r: seq<String>)
    ensures |r| >= 1
  {
    Split(text, Just('\n'))
  }

  /** What `applyToSelectedLines` computes. */
  function LinesEdit(a: LineAction, text: String, selection: Range): (r: Edit)
  {
    if |text| == 0 then Edit(Template(a), Range(|Template(a)|, 0))
    else
      var lineRange := SelectedLineRange(text, Clamped(selection, |text|));
      var replacement := Join(TransformedLines(a, Lines(Substring(text, lineRange))), "\n");
      Edit(ReplaceRange(text, lineRange, replacement), Range(lineRange.location, |replacement|))
  }

  /**
   * The loop of `applyToSelectedLines`: each line in turn is replaced by its
   * transform. The counter, which only the numbered list's transform reads,
   * starts at 1 and advances past every non-blank line.
   */
  method TransformEach(f: (String, nat) -> String, source: seq<String>) returns (lines: seq<String>)
    ensures lines == MapCounted(f, source)
  {
    lines := source;
    var index := 1;
    assert source[..0] == [];
    for lineIndex := 0 to |lines|
      invariant |lines| == |source|
      invariant index == NumberAt(source, lineIndex)
      invariant forall k :: 0 <= k < lineIndex ==> lines[k] == f(source[k], NumberAt(source, k))
      invariant forall k :: lineIndex <= k < |lines| ==> lines[k] == source[k]
    {
      lines := lines[lineIndex := f(lines[lineIndex], index)];
      if !IsBlank(source[lineIndex]) {
        index := index + 1;
      }
      NumberAtStep(source, lineIndex);
    }
  }

  /**
   * `applyToSelectedLines`: an empty text receives the action's template with
   * the caret after it; otherwise the covering line range is split into lines,
   * each is transformed, and the joined result replaces the range and is
   * selected.
   */
  method ApplyToSelectedLines(a: LineAction, text: String, selection: Range) returns (r: Edit)
    ensures r == LinesEdit(a, text, selection)
  {
    var clampedSelection := Clamped(selection, |text|);
    if |text| == 0 {
      return Edit(Template(a), Range(|Template(a)|, 0));
    }
    var lineRange := SelectedLineRange(text, clampedSelection);
    var lines := TransformEach(LineTransform(a), Lines(Substring(text, lineRange)));
    var replacement := Join(lines, "\n");
    r := Edit(ReplaceRange(text, lineRange, replacement), Range(lineRange.location, |replacement|));
  }

  /** `apply(action:to:selection:)`: inline actions wrap, line actions rewrite the covering lines. */
  method Apply(action: FormatAction, text: String, selection: Range) returns (r: Edit)
    ensures action.IsInline() ==> r == ApplyInline(action.Marker(), text, selection)
    ensures !action.IsInline() ==> r == LinesEdit(action.LineActionOf(), text, selection)
  {
    if action.IsInline() {
      r := ApplyInline(action.Marker(), text, selection);
    } else {
      r := ApplyToSelectedLines(action.LineActionOf(), text, selection);
    }
  }

  // ---------------------------------------------------------------------------
  // What the line transforms do to a line
  // ---------------------------------------------------------------------------

  /**
   * Content that starts with a character none of the marks can begin with and
   * that is not white space: what the marks of a list or heading line are
   * followed by.
   */
  predicate PlainStart(content: String) {
    content != []
    && !InSet(content[0], WhitespacesAndNewlines) && !IsRegexDigit(content[0])
    && content[0] != '#' && content[0] != '-' && content[0] != '['
  }

  /** A line with a character outside white space and newlines is not blank. */
  lemma NotBlank(s: String, i: nat)
    requires i < |s| && !InSet(s[i], WhitespacesAndNewlines)
    ensures !IsBlank(s)
  {
    TrimEmptyIff(s, WhitespacesAndNewlines);
  }

  /** The indentation and content of `indent ++ x` when `x` starts outside spaces and tabs. */
  lemma SplitIndent(indent: String, x: String)
    requires AllInClass(indent, IndentChars) && StopsRun(x, IndentChars)
    ensures LeadingIndent(indent + x) == indent && Content(indent + x) == x
  {
    IndentOf(indent, x);
  }

  /** Plain content carries no mark: each removal step leaves it alone. */
  lemma PlainHasNoMark(c: String)
    requires PlainStart(c)
    ensures StripHeadingMark(c) == c && StripNumberMark(c) == c
    ensures TaskBoxLength(c).None? && !HasPrefix(c, "- ")
    ensures StripMarks(c) == c
  {
    HeadingMarkLengthNone(c);
    assert Run(c, DigitChars) == 0;
    assert |c| >= 3 ==> c[..3][0] == c[0];
    assert |c| >= 2 ==> c[..2][0] == c[0];
  }

  /** `StripMarks` removes one "- " before plain content. */
  lemma StripMarksBullet(c: String)
    requires PlainStart(c)
    ensures StripMarks("- " + c) == c
  {
    var s := "- " + c;
    assert s[0] == '-' && s[2] == c[0];
    HeadingMarkLengthNone(s);
    assert Run(s, DigitChars) == 0;
    assert |s| >= 3 ==> s[..3][2] == s[2];
    assert s[..2] == "- " && s[2..] == c;
    PlainHasNoMark(c);
  }

  /** `StripMarks` removes one unchecked task box before plain content. */
  lemma StripMarksTask(c: String)
    requires PlainStart(c)
    ensures StripMarks("- [ ] " + c) == c
  {
    var s := "- [ ] " + c;
    assert s[0] == '-';
    HeadingMarkLengthNone(s);
    assert Run(s, DigitChars) == 0;
    assert s[..3] == "- [" && s[3] == ' ' && s[4] == ']';
    assert s[5..] == " " + c;
    RunOf(" ", c, SpaceChars);
    assert s[6..] == c;
  }

  /** `StripMarks` removes one number mark before plain content. */
  lemma StripMarksNumber(n: nat, c: String)
    requires PlainStart(c)
    ensures StripMarks(DecimalString(n) + ". " + c) == c
  {
    var d := DecimalString(n);
    var s := d + ". " + c;
    assert s[0] == d[0];
    HeadingMarkLengthNone(s);
    assert AllInClass(d, DigitChars);
    NumberMarkLengthOf(d, c);
    assert s[|d| + 2..] == c;
    PlainHasNoMark(c);
  }

  /** `StripMarks` removes a heading mark of one to six hashes before plain content. */
  lemma StripMarksHeading(level: nat, c: String)
    requires 1 <= level <= 6 && PlainStart(c)
    ensures StripMarks(Hashes(level) + " " + c) == c
  {
    var s := Hashes(level) + " " + c;
    HeadingMarkLengthOf(Hashes(level), " ", c);
    assert s[level + 1..] == c;
    PlainHasNoMark(c);
  }

  /** A list action puts its mark between the indentation and plain content. */
  lemma ListLineOf(a: LineAction, indent: String, c: String, n: nat)
    requires IsList(a) && AllInClass(indent, IndentChars) && PlainStart(c)
    ensures TransformLine(a, indent + c, n) == indent + ListPrefix(a, n) + c
  {
    SplitIndent(indent, c);
    NotBlank(indent + c, |indent|);
    PlainHasNoMark(c);
  }

  /**
   * A list action applied to a line of another list (or the same one) replaces
   * its mark: switching list styles keeps the indentation and the text.
   */
  lemma ListSwitch(a: LineAction, b: LineAction, indent: String, c: String, n: nat, m: nat)
    requires IsList(a) && IsList(b) && AllInClass(indent, IndentChars) && PlainStart(c)
    ensures TransformLine(b, indent + ListPrefix(a, n) + c, m) == indent + ListPrefix(b, m) + c
  {
    var p := ListPrefix(a, n);
    assert indent + p + c == indent + (p + c);
    assert (p + c)[0] == p[0];
    SplitIndent(indent, p + c);
    NotBlank(indent + (p + c), |indent|);
    match a
    case Bulleted => StripMarksBullet(c);
    case Tasks => StripMarksTask(c);
    case Numbered => StripMarksNumber(n, c);
  }

  /** A list action applied to a heading line replaces the heading mark. */
  lemma ListOfHeading(b: LineAction, level: nat, indent: String, c: String, m: nat)
    requires IsList(b) && 1 <= level <= 6 && AllInClass(indent, IndentChars) && PlainStart(c)
    ensures TransformLine(b, indent + Hashes(level) + " " + c, m) == indent + ListPrefix(b, m) + c
  {
    var h := Hashes(level) + " " + c;
    assert indent + Hashes(level) + " " + c == indent + h;
    assert h[0] == '#';
    SplitIndent(indent, h);
    NotBlank(indent + h, |indent|);
    StripMarksHeading(level, c);
  }

  /** Plain content after the indentation becomes a heading of the chosen level. */
  lemma HeadingOfPlain(level: nat, indent: String, c: String)
    requires AllInClass(indent, IndentChars) && PlainStart(c)
    ensures HeadingLine(level, indent + c) == indent + Hashes(level) + " " + c
  {
    SplitIndent(indent, c);
    PlainHasNoMark(c);
  }

  /**
   * A heading applied to a heading line replaces its mark, so applying a
   * heading twice is applying the second one once (and the same heading twice
   * is applying it once). The text after the old mark must not start with white
   * space, which the first heading's own mark would otherwise swallow.
   */
  lemma HeadingTwice(l1: nat, l2: nat, line: String)
    requires 1 <= l1 <= 6
    requires StopsRun(StripHeadingMark(Content(line)), SpaceChars)
    ensures HeadingLine(l2, HeadingLine(l1, line)) == HeadingLine(l2, line)
  {
    var indent := LeadingIndent(line);
    var rest := StripHeadingMark(Content(line));
    var x := Hashes(l1) + " " + rest;
    HeadingLineOfParts(l1, line, indent, Content(line));
    RegroupTail(indent, Hashes(l1), " ", rest);
    HashesStopIndent(l1, " " + rest);
    SplitIndent(indent, x);
    HeadingMarkOfHeading(l1, rest);
    HeadingLineOfParts(l2, indent + x, indent, x);
    HeadingLineOfParts(l2, line, indent, Content(line));
  }

  /** A heading mark of one to six hashes starts outside the indentation class. */
  lemma HashesStopIndent(level: nat, tail: String)
    requires 1 <= level
    ensures StopsRun(Hashes(level) + tail, IndentChars)
  {
    assert (Hashes(level) + tail)[0] == '#';
  }

  /** Stripping the mark of a freshly written heading leaves its text. */
  lemma HeadingMarkOfHeading(level: nat, rest: String)
    requires 1 <= level <= 6 && StopsRun(rest, SpaceChars)
    ensures StripHeadingMark(Hashes(level) + " " + rest) == rest
  {
    HeadingMarkLengthOf(Hashes(level), " ", rest);
    assert (Hashes(level) + " " + rest)[level + 1..] == rest;
  }

  /** The heading of a line whose indentation and content are known. */
  lemma HeadingLineOfParts(level: nat, line: String, indent: String, content: String)
    requires LeadingIndent(line) == indent && Content(line) == content
    ensures HeadingLine(level, line) == indent + Hashes(level) + " " + StripHeadingMark(content)
  {
  }

  /**
   * List actions leave blank lines as they are; every transform keeps the
   * line's indentation (a heading of level at least one).
   */
  lemma TransformKeepsIndent(a: LineAction, line: String, n: nat)
    requires a.Heading? ==> a.level >= 1
    ensures IsList(a) && IsBlank(line) ==> TransformLine(a, line, n) == line
    ensures LeadingIndent(TransformLine(a, line, n)) == LeadingIndent(line)
  {
    var indent := LeadingIndent(line);
    if a.Heading? {
      var x := Hashes(a.level) + " " + StripHeadingMark(Content(line));
      RegroupTail(indent, Hashes(a.level), " ", StripHeadingMark(Content(line)));
      assert x[0] == '#';
      SplitIndent(indent, x);
    } else if !IsBlank(line) {
      var p := ListPrefix(a, n);
      var x := p + StripMarks(Content(line));
      Regroup3(indent, p, StripMarks(Content(line)));
      assert x[0] == p[0];
      SplitIndent(indent, x);
    }
  }

  // ---------------------------------------------------------------------------
  // The numbered list's counter
  // ---------------------------------------------------------------------------

  /** The first non-blank line is numbered 1. */
  lemma {:induction false} NumberingStartsAtOne(lines: seq<String>, i: nat)
    requires i <= |lines|
    requires forall k :: 0 <= k < i ==> IsBlank(lines[k])
    ensures NumberAt(lines, i) == 1
  {
    if i == 0 {
      assert lines[..0] == [];
    } else {
      NumberingStartsAtOne(lines, i - 1);
      NumberAtStep(lines, i - 1);
    }
  }

  /** The next non-blank line after a non-blank line gets the next number. */
  lemma {:induction false} NumberingConsecutive(lines: seq<String>, i: nat, j: nat)
    requires i < j <= |lines| && !IsBlank(lines[i])
    requires forall k :: i < k < j ==> IsBlank(lines[k])
    ensures NumberAt(lines, j) == NumberAt(lines, i) + 1
    decreases j
  {
    NumberAtStep(lines, j - 1);
    if j - 1 > i {
      NumberingConsecutive(lines, i, j - 1);
    }
  }

  // ---------------------------------------------------------------------------
  // The edit a line action makes
  // ---------------------------------------------------------------------------

  lemma NoneInConcat(a: String, b: String, cs: CharSet)
    requires NoneIn(a, cs) && NoneIn(b, cs)
    ensures NoneIn(a + b, cs)
  {
    assert forall i :: |a| <= i < |a + b| ==> (a + b)[i] == b[i - |a|];
  }

  lemma NoneInHead(s: String, k: nat, cs: CharSet)
    requires k <= |s| && NoneIn(s, cs)
    ensures NoneIn(s[..k], cs)
  {
  }

  /** A transformed line holds a line feed only where the line did. */
  lemma TransformLineFree(a: LineAction, line: String, n: nat)
    requires NoneIn(line, Just('\n'))
    ensures NoneIn(TransformLine(a, line, n), Just('\n'))
  {
    var cs := Just('\n');
    var indent := LeadingIndent(line);
    NoneInHead(line, |indent|, cs);
    NoneInTail(line, |indent|, cs);
    var content := Content(line);
    if a.Heading? {
      var rest := StripHeadingMark(content);
      NoneInTail(content, |content| - |rest|, cs);
      NoneInConcat(indent, Hashes(a.level), cs);
      NoneInConcat(indent + Hashes(a.level), " ", cs);
      NoneInConcat(indent + Hashes(a.level) + " ", rest, cs);
    } else if !IsBlank(line) {
      var p := ListPrefix(a, n);
      assert NoneIn(p, cs) by {
        if a.Numbered? {
          NoneInConcat(DecimalString(n), ". ", cs);
        }
      }
      StripMarksFree(content, cs);
      NoneInConcat(indent, p, cs);
      NoneInConcat(indent + p, StripMarks(content), cs);
    }
  }

  /** Transformed lines hold no line feed, so splitting their join gives them back. */
  lemma TransformedLinesSplit(a: LineAction, s: String)
    ensures Lines(Join(TransformedLines(a, Lines(s)), "\n")) == TransformedLines(a, Lines(s))
  {
    var lines := Lines(s);
    var t := TransformedLines(a, lines);
    forall i | 0 <= i < |t| ensures NoneIn(t[i], Just('\n')) {
      SplitPieceFree(s, Just('\n'), i);
      TransformLineFree(a, lines[i], NumberAt(lines, i));
    }
    SplitJoin(t, '\n', Just('\n'));
  }

  /**
   * A line action on an empty text inserts the action's template with the
   * caret after it. On any other text it replaces the covering line range by
   * the transformed lines joined with line feeds and selects them: the text
   * before and after the range is unchanged, and the selection splits into
   * exactly the transformed lines.
   */
  lemma LinesEditEffect(a: LineAction, text: String, selection: Range)
    ensures |text| == 0 ==> LinesEdit(a, text, selection) == Edit(Template(a), Range(|Template(a)|, 0))
    ensures |text| > 0 ==>
      var range := SelectedLineRange(text, Clamped(selection, |text|));
      var lines := TransformedLines(a, Lines(Substring(text, range)));
      var replacement := Join(lines, "\n");
      var r := LinesEdit(a, text, selection);
      r.text == text[..range.location] + replacement + text[range.End()..]
      && r.selection == Range(range.location, |replacement|)
      && InBounds(r.text, r.selection)
      && Substring(r.text, r.selection) == replacement
      && Lines(Substring(r.text, r.selection)) == lines
  {
    if |text| > 0 {
      var range := SelectedLineRange(text, Clamped(selection, |text|));
      var replacement := Join(TransformedLines(a, Lines(Substring(text, range))), "\n");
      ReplaceRangeShape(text, range, replacement, 0, |replacement|);
      assert replacement[0..|replacement|] == replacement;
      TransformedLinesSplit(a, Substring(text, range));
    }
  }

  /** Splitting a text that ends in a line feed gives an empty last piece. */
  lemma {:induction false} LinesOfTerminated(s: String)
    ensures Lines(s + "\n") == Lines(s) + [[]]
    decreases |s|
  {
    if s == [] {
      assert Lines([] + "\n") == [[]] + Lines([]);
    } else {
      LinesOfTerminated(s[1..]);
      assert (s + "\n")[1..] == s[1..] + "\n";
      assert (s + "\n")[0] == s[0];
    }
  }

  /**
   * A heading applied to a covering range that ends in a line feed also
   * prefixes the empty piece after it, so the text that follows the range
   * starts with the heading mark too.
   */
  lemma HeadingPrefixesNextLine(level: nat, s: String)
    ensures Join(TransformedLines(Heading(level), Lines(s + "\n")), "\n")
      == Join(TransformedLines(Heading(level), Lines(s)), "\n") + "\n" + Hashes(level) + " "
  {
    LinesOfTerminated(s);
    HeadingOfSnocEmpty(level, Lines(s));
    JoinAppendOne(TransformedLines(Heading(level), Lines(s)), Hashes(level) + " ", "\n");
  }

  /** A heading turns one more, empty, piece into the bare mark. */
  lemma HeadingOfSnocEmpty(level: nat, p: seq<String>)
    ensures TransformedLines(Heading(level), p + [[]]) == TransformedLines(Heading(level), p) + [Hashes(level) + " "]
  {
    TransformedLinesSnoc(Heading(level), p, []);
    HeadingOfEmpty(level);
  }

  /** Without a counter to read, transforming one more line appends its transform. */
  lemma TransformedLinesSnoc(a: LineAction, p: seq<String>, x: String)
    requires !a.Numbered?
    ensures TransformedLines(a, p + [x]) == TransformedLines(a, p) + [TransformLine(a, x, 1)]
  {
    var t := TransformedLines(a, p + [x]);
    var u := TransformedLines(a, p);
    forall i | 0 <= i < |p|
      ensures t[i] == u[i]
    {
      assert (p + [x])[i] == p[i];
      TransformLineIgnoresNumber(a, p[i], NumberAt(p + [x], i), NumberAt(p, i));
    }
    assert (p + [x])[|p|] == x;
    TransformLineIgnoresNumber(a, x, NumberAt(p + [x], |p|), 1);
    assert t[|p|] == TransformLine(a, x, 1);
  }

  /** The heading of an empty piece is the bare mark. */
  lemma HeadingOfEmpty(level: nat)
    ensures HeadingLine(level, []) == Hashes(level) + " "
  {
    assert Run([], IndentChars) == 0;
    HeadingMarkLengthNone([]);
  }

  // ---------------------------------------------------------------------------
  // Task lines
  // ---------------------------------------------------------------------------

  /** `MarkdownTaskLine`: a task found on line `lineIndex` (which is also its id). */
  datatype TaskLine = TaskLine(id: int, lineIndex: int, isChecked: bool, lineText: String, indentation: String)

  /** `parseTaskLine`: a line matching `^([ \t]*)- \[([ xX])\]\s*(.*)$`, checked when its marker lowercases to "x". */
  function ParseTaskLine(line: String, lineIndex: int): (r: Option<TaskLine>)
    ensures r.Some? <==> MatchTask(line).Some?
    ensures r.Some? ==> (r.value.id == lineIndex && r.value.lineIndex == lineIndex
      && r.value.indentation == MatchTask(line).value.indentation
      && r.value.lineText == MatchTask(line).value.text
      && (r.value.isChecked <==> MatchTask(line).value.marker in "xX"))
  {
    match MatchTask(line)
    case None => None
    case Some(m) => Some(TaskLine(lineIndex, lineIndex, LowerChar(m.marker) == 'x', m.text, m.indentation))
  }

  /** Task lines among `lines`, in line order (`taskLines(in:)` after the split). */
  function TaskLinesOf(lines: seq<String>): (r: seq<TaskLine>)
    ensures |r| <= |lines|
  {
    if lines == [] then []
    else
      var n := |lines| - 1;
      match ParseTaskLine(lines[n], n)
      case None => TaskLinesOf(lines[..n])
      case Some(t) => TaskLinesOf(lines[..n]) + [t]
  }

  /** Every task of `r` is the parse of the line of `lines` it names. */
  predicate ParsedFrom(lines: seq<String>, r: seq<TaskLine>) {
    forall i :: 0 <= i < |r| ==> (0 <= r[i].lineIndex < |lines|
      && ParseTaskLine(lines[r[i].lineIndex], r[i].lineIndex) == Some(r[i]))
  }

  /** The tasks of `r` come in strictly ascending line order. */
  predicate InLineOrder(r: seq<TaskLine>) {
    forall i, j :: 0 <= i < j < |r| ==> r[i].lineIndex < r[j].lineIndex
  }

  /**
   * Every listed task is the parse of the line it names, and the tasks come in
   * strictly ascending line order.
   */
  lemma {:induction false} TaskLinesSound(lines: seq<String>)
    ensures ParsedFrom(lines, TaskLinesOf(lines)) && InLineOrder(TaskLinesOf(lines))
    decreases |lines|
  {
    if lines != [] {
      var n := |lines| - 1;
      var prev := TaskLinesOf(lines[..n]);
      TaskLinesSound(lines[..n]);
      ParsedFromLonger(lines, n, prev);
      var p := ParseTaskLine(lines[n], n);
      if p.Some? {
        ParsedFromSnoc(lines, prev, p.value);
        InLineOrderSnoc(prev, p.value);
        assert TaskLinesOf(lines) == prev + [p.value];
      } else {
        assert TaskLinesOf(lines) == prev;
      }
    }
  }

  /** Tasks parsed from the first `n` lines are parsed from the whole text too, and lie before line `n`. */
  lemma ParsedFromLonger(lines: seq<String>, n: nat, prev: seq<TaskLine>)
    requires n <= |lines| && ParsedFrom(lines[..n], prev)
    ensures ParsedFrom(lines, prev)
    ensures forall i :: 0 <= i < |prev| ==> prev[i].lineIndex < n
  {
    forall i | 0 <= i < |prev|
      ensures 0 <= prev[i].lineIndex < n && ParseTaskLine(lines[prev[i].lineIndex], prev[i].lineIndex) == Some(prev[i])
    {
      assert lines[..n][prev[i].lineIndex] == lines[prev[i].lineIndex];
    }
  }

  /** Appending the parse of a line keeps every task the parse of its line. */
  lemma ParsedFromSnoc(lines: seq<String>, prev: seq<TaskLine>, t: TaskLine)
    requires ParsedFrom(lines, prev)
    requires 0 <= t.lineIndex < |lines| && ParseTaskLine(lines[t.lineIndex], t.lineIndex) == Some(t)
    ensures ParsedFrom(lines, prev + [t])
  {
    var r := prev + [t];
    forall i | 0 <= i < |r|
      ensures 0 <= r[i].lineIndex < |lines| && ParseTaskLine(lines[r[i].lineIndex], r[i].lineIndex) == Some(r[i])
    {
      if i < |prev| {
        assert r[i] == prev[i];
      } else {
        assert r[i] == t;
      }
    }
  }

  /** Appending a task on a later line than all others keeps the line order. */
  lemma InLineOrderSnoc(prev: seq<TaskLine>, t: TaskLine)
    requires InLineOrder(prev) && forall i :: 0 <= i < |prev| ==> prev[i].lineIndex < t.lineIndex
    ensures InLineOrder(prev + [t])
  {
    assert forall i :: 0 <= i < |prev| ==> (prev + [t])[i] == prev[i];
  }


  /** Every line that parses as a task is listed. */
  lemma {:induction false} TaskLinesComplete(lines: seq<String>, k: nat) returns (i: nat)
    requires k < |lines| && ParseTaskLine(lines[k], k).Some?
    ensures i < |TaskLinesOf(lines)| && TaskLinesOf(lines)[i] == ParseTaskLine(lines[k], k).value
    decreases |lines|
  {
    var n := |lines| - 1;
    var prev := TaskLinesOf(lines[..n]);
    if k == n {
      i := |prev|;
    } else {
      assert lines[..n][k] == lines[k];
      i := TaskLinesComplete(lines[..n], k);
    }
  }

  /** `taskLines(in:)`. */
  function TaskLines(markdown: String): seq<TaskLine> {
    TaskLinesOf(Lines(markdown))
  }

  /** The line a toggle writes: its indentation, a box with the flipped marker, one space and the text. */
  function ToggledLine(t: TaskLine): String {
    t.indentation + "- [" + [if t.isChecked then ' ' else 'x'] + "]" + " " + t.lineText
  }

  /**
   * `toggleTask(in:lineIndex:)`: the markdown unchanged when the index is out
   * of range or its line is not a task; otherwise that line rewritten with its
   * box flipped.
   */
  function ToggleTask(markdown: String, lineIndex: int): String {
    var lines := Lines(markdown);
    if !(0 <= lineIndex < |lines|) then markdown
    else
      match ParseTaskLine(lines[lineIndex], lineIndex)
      case None => markdown
      case Some(t) => Join(lines[lineIndex := ToggledLine(t)], "\n")
  }

  lemma IndentFree(s: String)
    requires AllInClass(s, IndentChars)
    ensures NoneIn(s, Just('\n'))
  {
  }

  lemma TailTextFree(s: String)
    requires AllInClass(s, NonTerminators)
    ensures NoneIn(s, Just('\n'))
  {
    assert forall i :: 0 <= i < |s| ==> InClass(s[i], NonTerminators);
  }

  /** The box a toggle writes holds no line feed. */
  lemma BoxFree(mk: char)
    requires mk == ' ' || mk == 'x'
    ensures NoneIn("- [" + [mk] + "]" + " ", Just('\n'))
  {
  }

  lemma RegroupToggled(a: String, b1: String, b2: String, b3: String, b4: String, c: String)
    ensures a + b1 + b2 + b3 + b4 + c == a + (b1 + b2 + b3 + b4) + c
  {
  }

  /** A toggled line holds no line feed. */
  lemma ToggledLineFree(t: TaskLine)
    requires AllInClass(t.indentation, IndentChars) && IsTailText(t.lineText)
    ensures NoneIn(ToggledLine(t), Just('\n'))
  {
    var mk := if t.isChecked then ' ' else 'x';
    var box := "- [" + [mk] + "]" + " ";
    IndentFree(t.indentation);
    TailTextFree(t.lineText);
    BoxFree(mk);
    RegroupToggled(t.indentation, "- [", [mk], "]", " ", t.lineText);
    NoneInConcat(t.indentation, box, Just('\n'));
    NoneInConcat(t.indentation + box, t.lineText, Just('\n'));
  }

  /** A toggled line parses as the same task with its box flipped. */
  lemma ToggledLineParses(line: String, lineIndex: int)
    requires ParseTaskLine(line, lineIndex).Some?
    ensures var t := ParseTaskLine(line, lineIndex).value;
      ParseTaskLine(ToggledLine(t), lineIndex) == Some(t.(isChecked := !t.isChecked))
  {
    var t := ParseTaskLine(line, lineIndex).value;
    var mk := if t.isChecked then ' ' else 'x';
    var l := ToggledLine(t);
    assert l + [] == l;
    MatchTaskOf(t.indentation, mk, " ", t.lineText, []);
  }

  /**
   * Toggling does nothing to an index out of range or to a line that is not a
   * task. Otherwise exactly that line changes, into the toggled line, which
   * parses as the same task with its box flipped.
   */
  lemma ToggleTaskEffect(markdown: String, lineIndex: int)
    ensures var lines := Lines(markdown);
      !(0 <= lineIndex < |lines| && ParseTaskLine(lines[lineIndex], lineIndex).Some?) ==> ToggleTask(markdown, lineIndex) == markdown
    ensures var lines := Lines(markdown);
      0 <= lineIndex < |lines| && ParseTaskLine(lines[lineIndex], lineIndex).Some? ==>
        var t := ParseTaskLine(lines[lineIndex], lineIndex).value;
        Lines(ToggleTask(markdown, lineIndex)) == lines[lineIndex := ToggledLine(t)]
        && ParseTaskLine(Lines(ToggleTask(markdown, lineIndex))[lineIndex], lineIndex)
          == Some(t.(isChecked := !t.isChecked))
  {
    var lines := Lines(markdown);
    if 0 <= lineIndex < |lines| && ParseTaskLine(lines[lineIndex], lineIndex).Some? {
      var t := ParseTaskLine(lines[lineIndex], lineIndex).value;
      var updated := lines[lineIndex := ToggledLine(t)];
      ToggledLineFree(t);
      forall k | 0 <= k < |updated| ensures NoneIn(updated[k], Just('\n')) {
        if k != lineIndex {
          SplitPieceFree(markdown, Just('\n'), k);
        }
      }
      SplitJoin(updated, '\n', Just('\n'));
      ToggledLineParses(lines[lineIndex], lineIndex);
    }
  }

  /**
   * Toggling the same line twice writes it in the toggle's own form with its
   * original state and leaves every other line alone.
   */
  lemma ToggleTaskTwice(markdown: String, lineIndex: int)
    requires 0 <= lineIndex < |Lines(markdown)| && ParseTaskLine(Lines(markdown)[lineIndex], lineIndex).Some?
    ensures var t := ParseTaskLine(Lines(markdown)[lineIndex], lineIndex).value;
      Lines(ToggleTask(ToggleTask(markdown, lineIndex), lineIndex))
        == Lines(markdown)[lineIndex := ToggledLine(t.(isChecked := !t.isChecked))]
  {
    var lines := Lines(markdown);
    var t := ParseTaskLine(lines[lineIndex], lineIndex).value;
    var u := t.(isChecked := !t.isChecked);
    ToggleTaskAt(markdown, lineIndex, t);
    var once := ToggleTask(markdown, lineIndex);
    assert Lines(once)[lineIndex] == ToggledLine(t);
    ToggleTaskAt(once, lineIndex, u);
    UpdateTwice(lines, lineIndex, ToggledLine(t), ToggledLine(u));
  }

  lemma UpdateTwice<T>(s: seq<T>, i: nat, a: T, b: T)
    requires i < |s|
    ensures s[i := a][i := b] == s[i := b]
  {
  }

  /** `ToggleTaskEffect` for a line known to parse as task `t`. */
  lemma ToggleTaskAt(markdown: String, lineIndex: int, t: TaskLine)
    requires 0 <= lineIndex < |Lines(markdown)| && ParseTaskLine(Lines(markdown)[lineIndex], lineIndex) == Some(t)
    ensures Lines(ToggleTask(markdown, lineIndex)) == Lines(markdown)[lineIndex := ToggledLine(t)]
    ensures ParseTaskLine(ToggledLine(t), lineIndex) == Some(t.(isChecked := !t.isChecked))
  {
    ToggleTaskEffect(markdown, lineIndex);
  }

  /**
   * A task line already in the toggle's own form (lower-case marker, one space
   * before the text, nothing after it) comes back unchanged after two
   * toggles, and so does the whole markdown.
   */
  lemma ToggleTaskTwiceRestores(markdown: String, lineIndex: int)
    requires 0 <= lineIndex < |Lines(markdown)| && ParseTaskLine(Lines(markdown)[lineIndex], lineIndex).Some?
    requires var t := ParseTaskLine(Lines(markdown)[lineIndex], lineIndex).value;
      Lines(markdown)[lineIndex] == ToggledLine(t.(isChecked := !t.isChecked))
    ensures ToggleTask(ToggleTask(markdown, lineIndex), lineIndex) == markdown
  {
    var twice := ToggleTask(ToggleTask(markdown, lineIndex), lineIndex);
    ToggleTaskTwice(markdown, lineIndex);
    assert Lines(twice) == Lines(markdown);
    JoinSplit(markdown, '\n');
    JoinSplit(twice, '\n');
  }
}
