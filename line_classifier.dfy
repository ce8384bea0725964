/**
 * How the rendered note view reads a note: the markdown is split at "\n",
 * each line is shown as a task row, a heading, an unordered item, an ordered
 * item, an empty row or plain text, in that order of precedence, and list
 * rows are indented by a column count of their indentation.
 */
module LineClassifier {
  import opened Wrappers
  import opened Text
  import opened Patterns
  import opened EditingCore

  /** `HeadingLine`: the heading's level, indentation and text. */
  datatype HeadingLine = HeadingLine(level: int, indentation: String, text: String)

  /** `ListLine`: an unordered item's indentation and text. */
  datatype ListLine = ListLine(indentation: String, text: String)

  /** `OrderedListLine`: an ordered item's indentation, number (its digits as written) and text. */
  datatype OrderedListLine = OrderedListLine(indentation: String, number: String, text: String)

  /** What `lineView` shows for one line. */
  datatype LineView =
    | TaskRow(task: TaskLine)
    | HeadingRow(heading: HeadingLine)
    | ListRow(marker: String, text: String, indentation: String)
    | EmptyRow
    | PlainRow(line: String)

  /** The bullet an unordered row shows (U+2022). */
  const UnorderedMarker: String := "•"

  /** `min(max(count, 1), 6)`. */
  function ClampLevel(count: int): (level: int)
    ensures 1 <= level <= 6
    ensures 1 <= count <= 6 ==> level == count
  {
    var atLeastOne := if count > 1 then count else 1;
    if atLeastOne < 6 then atLeastOne else 6
  }

  /** `parseHeadingLine`: the groups of `^([ \t]*)(#{1,6})\s+(.*)$`, the level clamped from the marker's length. */
  function ParseHeadingLine(line: String): Option<HeadingLine> {
    match MatchHeading(line)
    case None => None
    case Some(h) => Some(HeadingLine(ClampLevel(|h.marker|), h.indentation, h.text))
  }

  /** `parseUnorderedListLine`: groups 1 and 3 of `^([ \t]*)([-*+])\s+(.*)$`. */
  function ParseUnorderedListLine(line: String): Option<ListLine> {
    match MatchUnordered(line)
    case None => None
    case Some(u) => Some(ListLine(u.indentation, u.text))
  }

  /** `parseOrderedListLine`: groups 1, 2 and 4 of `^([ \t]*)(\d+)([.)])\s+(.*)$`. */
  function ParseOrderedListLine(line: String): Option<OrderedListLine> {
    match MatchOrdered(line)
    case None => None
    case Some(o) => Some(OrderedListLine(o.indentation, o.number, o.text))
  }

  /** `lineView(line:lineIndex:task:)`: task, heading, unordered, ordered, empty, plain. */
  function ViewOf(line: String, task: Option<TaskLine>): LineView {
    if task.Some? then TaskRow(task.value)
    else
      match ParseHeadingLine(line)
      case Some(h) => HeadingRow(h)
      case None =>
        match ParseUnorderedListLine(line)
        case Some(u) => ListRow(UnorderedMarker, u.text, u.indentation)
        case None =>
          match ParseOrderedListLine(line)
          case Some(o) => ListRow(o.number + ".", o.text, o.indentation)
          case None => if line == [] then EmptyRow else PlainRow(line)
  }

  // ---------------------------------------------------------------------------
  // The note view
  // ---------------------------------------------------------------------------

  /** `Dictionary(uniqueKeysWithValues:)` over the tasks, keyed by line index. */
  function TaskIndex(tasks: seq<TaskLine>): map<int, TaskLine> {
    if tasks == [] then map[]
    else
      var n := |tasks| - 1;
      TaskIndex(tasks[..n])[tasks[n].lineIndex := tasks[n]]
  }

  /** The rows of the note view: line `i` of the split, looked up by `i` among task-line entries. */
  function RenderedLines(markdown: String): (r: seq<LineView>)
    ensures |r| == |Lines(markdown)|
  {
    var lines := Lines(markdown);
    var index := TaskIndex(TaskLines(markdown));
    seq(|lines|, i requires 0 <= i < |lines| => ViewOf(lines[i], if i in index then Some(index[i]) else None))
  }

  /** The line indices of tasks in ascending line order are keys without duplicates. */
  lemma {:induction false} TaskIndexHas(tasks: seq<TaskLine>, i: nat)
    requires InLineOrder(tasks) && i < |tasks|
    ensures tasks[i].lineIndex in TaskIndex(tasks) && TaskIndex(tasks)[tasks[i].lineIndex] == tasks[i]
    decreases |tasks|
  {
    var n := |tasks| - 1;
    if i < n {
      assert InLineOrder(tasks[..n]) by {
        forall a, b | 0 <= a < b < n ensures tasks[..n][a].lineIndex < tasks[..n][b].lineIndex {
          assert tasks[..n][a] == tasks[a] && tasks[..n][b] == tasks[b];
        }
      }
      TaskIndexHas(tasks[..n], i);
      assert tasks[..n][i] == tasks[i];
      assert tasks[i].lineIndex < tasks[n].lineIndex;
    }
  }

  /** Every key of the index is the line index of a task, and maps to that task. */
  lemma {:induction false} TaskIndexKey(tasks: seq<TaskLine>, k: int) returns (i: nat)
    requires k in TaskIndex(tasks)
    ensures i < |tasks| && tasks[i].lineIndex == k && TaskIndex(tasks)[k] == tasks[i]
    decreases |tasks|
  {
    var n := |tasks| - 1;
    if tasks[n].lineIndex == k {
      i := n;
    } else {
      i := TaskIndexKey(tasks[..n], k);
      assert tasks[..n][i] == tasks[i];
    }
  }

  /** A key of the note's task index is a line that parses as a task, and maps to that parse. */
  lemma TaskIndexSound(markdown: String, k: int)
    ensures var index := TaskIndex(TaskLines(markdown));
      k in index ==> 0 <= k < |Lines(markdown)| && ParseTaskLine(Lines(markdown)[k], k) == Some(index[k])
  {
    var tasks := TaskLines(markdown);
    if k in TaskIndex(tasks) {
      var i := TaskIndexKey(tasks, k);
      TaskLinesSound(Lines(markdown));
    }
  }

  /** A line that parses as a task is shown as that task's row: the lookup uses the same indices as `taskLines`. */
  lemma RenderedTaskRow(markdown: String, k: nat)
    requires k < |Lines(markdown)| && ParseTaskLine(Lines(markdown)[k], k).Some?
    ensures RenderedLines(markdown)[k] == TaskRow(ParseTaskLine(Lines(markdown)[k], k).value)
  {
    var lines := Lines(markdown);
    var i := TaskLinesComplete(lines, k);
    TaskLinesSound(lines);
    TaskIndexHas(TaskLines(markdown), i);
  }

  /** Any other line is shown by the rest of the precedence chain. */
  lemma RenderedOtherRow(markdown: String, k: nat)
    requires k < |Lines(markdown)| && ParseTaskLine(Lines(markdown)[k], k).None?
    ensures RenderedLines(markdown)[k] == ViewOf(Lines(markdown)[k], None)
  {
    TaskIndexSound(markdown, k);
  }

  // ---------------------------------------------------------------------------
  // The matchers on lines built from their groups
  // ---------------------------------------------------------------------------

  /** A heading yields its indentation and text, and its level is the number of `#`. */
  lemma HeadingOf(indent: String, marker: String, ws: String, text: String, term: String)
    requires AllInClass(indent, IndentChars) && 1 <= |marker| <= 6 && AllInClass(marker, HashChars)
    requires AllInClass(ws, SpaceChars) && ws != [] && IsTailText(text) && IsEndOfInput(term)
    ensures ParseHeadingLine(indent + marker + ws + text + term) == Some(HeadingLine(|marker|, indent, text))
  {
    MatchHeadingOf(indent, marker, ws, text, term);
  }

  /**
   * Every heading is its indentation, a run of one to six `#` as long as its
   * level, white space, its text and the end of the input.
   */
  lemma HeadingParts(line: String) returns (marker: String, ws: String, term: String)
    requires ParseHeadingLine(line).Some?
    ensures var h := ParseHeadingLine(line).value;
      line == h.indentation + marker + ws + h.text + term
      && |marker| == h.level && 1 <= h.level <= 6 && AllInClass(marker, HashChars)
      && ws != [] && AllInClass(ws, SpaceChars) && IsEndOfInput(term)
  {
    marker := MatchHeading(line).value.marker;
    ws, term := MatchHeadingParts(line);
  }

  /** A greedy run covers a prefix in its class. */
  lemma RunCoversPrefix(s: String, n: nat, k: CharClass)
    requires n <= |s| && AllInClass(s[..n], k)
    ensures n <= Run(s, k)
  {
    RunCovers(s[..n], s[n..], k);
    assert s[..n] + s[n..] == s;
  }

  /** Seven `#` after the indentation are not a heading. */
  lemma SevenHashesNoHeading(indent: String, rest: String)
    requires AllInClass(indent, IndentChars)
    ensures ParseHeadingLine(indent + "#######" + rest).None?
  {
    var s := "#######" + rest;
    assert indent + "#######" + rest == indent + s;
    IndentOf(indent, s);
    assert s[..7] == "#######";
    RunCoversPrefix(s, 7, HashChars);
  }

  /** An unordered item yields its indentation and text, and is no heading. */
  lemma UnorderedOf(indent: String, bullet: char, ws: String, text: String, term: String)
    requires AllInClass(indent, IndentChars) && IsBullet(bullet) && AllInClass(ws, SpaceChars) && ws != []
    requires IsTailText(text) && IsEndOfInput(term)
    ensures var line := indent + [bullet] + ws + text + term;
      ParseUnorderedListLine(line) == Some(ListLine(indent, text)) && ParseHeadingLine(line).None?
  {
    var tail := ws + text + term;
    MatchUnorderedOf(indent, bullet, ws, text, term);
    RegroupTail(indent + [bullet], ws, text, term);
    Regroup3(indent, [bullet], tail);
    IndentOf(indent, [bullet] + tail);
  }

  /** An ordered item keeps its number as the digits written, and is no heading and no unordered item. */
  lemma OrderedOf(indent: String, number: String, sep: char, ws: String, text: String, term: String)
    requires AllInClass(indent, IndentChars) && number != [] && AllInClass(number, DigitChars)
    requires IsOrderedSeparator(sep) && AllInClass(ws, SpaceChars) && ws != []
    requires IsTailText(text) && IsEndOfInput(term)
    ensures var line := indent + number + [sep] + ws + text + term;
      ParseOrderedListLine(line) == Some(OrderedListLine(indent, number, text))
      && ParseHeadingLine(line).None? && ParseUnorderedListLine(line).None?
  {
    MatchOrderedOf(indent, number, sep, ws, text, term);
    OrderedNotOther(indent, number, sep, ws, text, term);
  }

  /** A digit after the indentation is neither `#` nor a bullet. */
  lemma OrderedNotOther(indent: String, number: String, sep: char, ws: String, text: String, term: String)
    requires AllInClass(indent, IndentChars) && number != [] && AllInClass(number, DigitChars)
    ensures var line := indent + number + [sep] + ws + text + term;
      MatchHeading(line).None? && MatchUnordered(line).None?
  {
    var line := indent + number + [sep] + ws + text + term;
    OrderedLineStart(indent, number, sep, ws, text, term);
    NotBulleted(line);
    NotHeading(line);
  }

  /** The empty line is matched by no pattern. */
  lemma EmptyLineMatchesNothing()
    ensures ParseHeadingLine([]).None? && ParseUnorderedListLine([]).None? && ParseOrderedListLine([]).None?
  {
    assert Run([], IndentChars) == 0;
  }

  // ---------------------------------------------------------------------------
  // The precedence on lines built from their groups
  // ---------------------------------------------------------------------------

  /** A heading line that is not a task is shown as a heading. */
  lemma HeadingView(indent: String, marker: String, ws: String, text: String, term: String)
    requires AllInClass(indent, IndentChars) && 1 <= |marker| <= 6 && AllInClass(marker, HashChars)
    requires AllInClass(ws, SpaceChars) && ws != [] && IsTailText(text) && IsEndOfInput(term)
    ensures ViewOf(indent + marker + ws + text + term, None) == HeadingRow(HeadingLine(|marker|, indent, text))
  {
    HeadingOf(indent, marker, ws, text, term);
  }

  /** An unordered line that is not a task is shown with a bullet, its text and its indentation. */
  lemma UnorderedView(indent: String, bullet: char, ws: String, text: String, term: String)
    requires AllInClass(indent, IndentChars) && IsBullet(bullet) && AllInClass(ws, SpaceChars) && ws != []
    requires IsTailText(text) && IsEndOfInput(term)
    ensures ViewOf(indent + [bullet] + ws + text + term, None) == ListRow(UnorderedMarker, text, indent)
  {
    UnorderedOf(indent, bullet, ws, text, term);
  }

  /** An ordered line is shown with its digits and a period, whatever its separator. */
  lemma OrderedView(indent: String, number: String, sep: char, ws: String, text: String, term: String)
    requires AllInClass(indent, IndentChars) && number != [] && AllInClass(number, DigitChars)
    requires IsOrderedSeparator(sep) && AllInClass(ws, SpaceChars) && ws != []
    requires IsTailText(text) && IsEndOfInput(term)
    ensures ViewOf(indent + number + [sep] + ws + text + term, None) == ListRow(number + ".", text, indent)
  {
    OrderedOf(indent, number, sep, ws, text, term);
  }

  /** Without a task, a line is shown as an empty row exactly when it is empty. */
  lemma EmptyViewIff(line: String)
    ensures ViewOf(line, None) == EmptyRow <==> line == []
  {
    EmptyLineMatchesNothing();
  }

  /** Without a task, a line is shown as plain text exactly when it is non-empty and matches no pattern. */
  lemma PlainViewIff(line: String)
    ensures ViewOf(line, None) == PlainRow(line) <==>
      line != [] && ParseHeadingLine(line).None? && ParseUnorderedListLine(line).None?
      && ParseOrderedListLine(line).None?
  {
  }

  // ---------------------------------------------------------------------------
  // Indentation
  // ---------------------------------------------------------------------------

  /** The columns of one indentation character: 4 for a tab, 1 for anything else. */
  function ColumnWidth(c: char): nat {
    if c == '\t' then 4 else 1
  }

  /** `indentation.reduce(0) { … }`: the column count, folded from the left. */
  function Columns(indentation: String): nat {
    if indentation == [] then 0
    else
      var n := |indentation| - 1;
      Columns(indentation[..n]) + ColumnWidth(indentation[n])
  }

  /** `indentationWidth`: six points per column. */
  function IndentationWidth(indentation: String): (points: nat)
    ensures points % 6 == 0
  {
    6 * Columns(indentation)
  }

  /** The column count adds up over concatenation. */
  lemma {:induction false} ColumnsConcat(a: String, b: String)
    ensures Columns(a + b) == Columns(a) + Columns(b)
    decreases |b|
  {
    if b == [] {
      assert a + b == a;
    } else {
      var n := |b| - 1;
      assert (a + b)[..|a| + n] == a + b[..n];
      ColumnsConcat(a, b[..n]);
    }
  }

  /** Every character counts at least one column and at most four, and exactly one unless it is a tab. */
  lemma {:induction false} ColumnsBounds(indentation: String)
    ensures |indentation| <= Columns(indentation) <= 4 * |indentation|
    ensures Columns(indentation) == |indentation| <==> '\t' !in indentation
    decreases |indentation|
  {
    if indentation != [] {
      var n := |indentation| - 1;
      ColumnsBounds(indentation[..n]);
      assert indentation == indentation[..n] + [indentation[n]];
      assert '\t' in indentation <==> '\t' in indentation[..n] || indentation[n] == '\t';
    }
  }
}
