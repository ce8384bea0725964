# Orbit core, modelled in Dafny

Orbit is a macOS focus-session app. It captures notes and tasks into sessions, renders sessions as markdown
documents and reads them back, and gives its note editor markdown shortcuts and list continuation on Return.
This project models the parts of Orbit that are logic rather than UI, storage or OS glue, and proves what they promise:

- the markdown editing engine: selection clamping, inline wraps, line transforms over the covering line range,
  task-line scanning and toggling (`EditingCore`, with `TextRanges` for `NSString` ranges and line ranges);
- the Return-key decision of the note editor and its list continuation (`ListContinuation`, a class holding
  the text view's text and selection);
- the line classifier of the rendered note view (`LineClassifier`);
- the session markdown codec: render, the two-strategy parse, the shared item scanner and tag reconciliation
  (`SessionCodec`), with the render/parse round trip (`SessionRoundTrip`);
- the repository's export renderer, normalisers and write rules over an in-memory store (`FocusRepository`,
  a class over maps standing for the SQLite tables);
- the normalisation and catalog rules: `FocusDefaults` and the domain types (`FocusDomain`), session tags
  (`SessionTags`), the tag catalog (`TagStore`), capture input parsing (`CapturedItems`), session file names
  (`Sessions`), focus modes (`FocusModes`);
- shortcut strings: hint formatting (`HotkeyHints`) and shortcut parsing with the hotkey registry (`Hotkeys`);
- the reducers: StartSession, Session, SessionWindow, FloatingPalette, FocusMode and the synchronous branches
  of the app reducer (`AppFeature`), each a class holding the feature's state with one method per action.

Shared modules: `Wrappers` (Option), `Text` (characters as UTF-16 units, Foundation's character sets,
trim, split, join, ASCII case mapping, decimal strings), `DateTime` (a calendar date and time with the
formatters and a strict parser), `Sorting` (a stable insertion sort by a total preorder), `Filtering`, `Dedup`
(first occurrences), `Uuids`, `Patterns` (the regular expressions the editor, the list continuation and the
classifier share, as greedy matchers), `Effects` (the child reducers' effects and the shared text-field
submission rule).

Every loop of the source is a method with invariants proved equal to a specification function; the
properties are lemmas about those functions. Object state the source mutates (reducer state, the text view,
the hotkey registry, the repository tables) is a class whose methods state their whole new state.

## Model

| member | source | states |
|---|---|---|
| EditingCore.Clamped | Sources/OrbitApp/Shared/MarkdownEditingCore.swift:265-269 | The clamped range lies inside [0, maxLength]: the location is in bounds and the length reaches at most to the end. An in-bounds location is kept, and an in-bounds range is returned unchanged. |
| EditingCore.ClampedIdempotent | Sources/OrbitApp/Shared/MarkdownEditingCore.swift:265-269 | Clamping twice is clamping once. |
| EditingCore.Inserted | Sources/OrbitApp/Shared/MarkdownEditingCore.swift:155-168 | What an inline wrap puts between its markers: the selected text when the range is non-empty, the 4-character placeholder "text" when it is empty. |
| EditingCore.WrapShape | Sources/OrbitApp/Shared/MarkdownEditingCore.swift:155-168 | The wrapped text is the text before the range, the marker, the inserted text, the marker, and the text after the range. The new selection starts one marker length after the range's start, spans exactly the inserted text, lies in bounds, and selects that text. |
| EditingCore.WrapUndo | Sources/OrbitApp/Shared/MarkdownEditingCore.swift:155-168 | Replacing the two markers and the inserted text by what the range held restores the original text. |
| EditingCore.ApplyInlineWraps | Sources/OrbitApp/Shared/MarkdownEditingCore.swift:150-169 | `applyInline` on any selection: the shape, the selection and the undo of `WrapShape`/`WrapUndo`, for the clamped range. |
| EditingCore.Hashes | Sources/OrbitApp/Shared/MarkdownEditingCore.swift:172 | `String(repeating: "#", count: n)` has length n and holds only '#'. |
| EditingCore.LeadingIndent | Sources/OrbitApp/Shared/MarkdownEditingCore.swift:271-273 | The indent is a prefix of the line made of spaces and tabs, and the rest of the line does not start with one (it is the longest such prefix). |
| EditingCore.StripHeadingMark | Sources/OrbitApp/Shared/MarkdownEditingCore.swift:279-281 | Removing a leading heading mark leaves a suffix of the content. |
| EditingCore.StripNumberMark | Sources/OrbitApp/Shared/MarkdownEditingCore.swift:282-284 | Removing a leading number mark leaves a suffix of the content. |
| EditingCore.StripMarksFree | Sources/OrbitApp/Shared/MarkdownEditingCore.swift:275-294 | `stripLinePrefix` adds no character: content free of a character stays free of it. |
| EditingCore.TransformLineIgnoresNumber | Sources/OrbitApp/Shared/MarkdownEditingCore.swift:171-213 | Only the numbered-list transform reads the counter: any other transform gives the same line whatever the counter. |
| EditingCore.NonBlankCount | Sources/OrbitApp/Shared/MarkdownEditingCore.swift:194-202 | The number of non-blank lines is at most the number of lines. |
| EditingCore.NumberAtStep | Sources/OrbitApp/Shared/MarkdownEditingCore.swift:194-202 | The numbered list's counter advances by one past a non-blank line and stays put past a blank one (`defer { index += 1 }` runs only after a non-blank line). |
| EditingCore.MapCounted | Sources/OrbitApp/Shared/MarkdownEditingCore.swift:232-234 | Every line is replaced by the transform of that line with the counter of its position, and the number of lines is kept. |
| EditingCore.TransformedLines | Sources/OrbitApp/Shared/MarkdownEditingCore.swift:232-234 | Line i of the result is line i transformed with the counter of position i, and the number of lines is kept. |
| EditingCore.SelectedLineRange | Sources/OrbitApp/Shared/MarkdownEditingCore.swift:246-263 | The covering line range lies within the text. |
| EditingCore.SelectedLineRangeCovers | Sources/OrbitApp/Shared/MarkdownEditingCore.swift:246-263 | The covering range contains the selection. It starts at a line start and ends at a line end or at an end of the text. No line ends between its start and the first covered character, nor between the last covered character and its end, so it covers exactly the lines from the first selected character through the last one, terminators included. |
| EditingCore.SelectedLineRangeBounds | Sources/OrbitApp/Shared/MarkdownEditingCore.swift:249-262 | The first covered character precedes or equals the last one, both inside the text. The range runs from the line start of the first to the line end of the last. |
| EditingCore.Lines | Sources/OrbitApp/Shared/MarkdownEditingCore.swift:230 | Splitting at "\n" with empty pieces kept gives at least one piece. |
| EditingCore.TransformEach | Sources/OrbitApp/Shared/MarkdownEditingCore.swift:232-234 | The loop that rewrites `lines[lineIndex]` in place computes `MapCounted`: each line transformed with the counter of its position. |
| EditingCore.ApplyToSelectedLines | Sources/OrbitApp/Shared/MarkdownEditingCore.swift:215-244 | The method's result is the line edit that `LinesEditEffect` characterises. |
| EditingCore.Apply | Sources/OrbitApp/Shared/MarkdownEditingCore.swift:103-126 | Bold, italic, underline and strikethrough wrap the selection in "**", "*", "__" and "~~". Headings 1 to 3, the bulleted, numbered and task lists rewrite the covering lines. |
| EditingCore.NotBlank | Sources/OrbitApp/Shared/MarkdownEditingCore.swift:185 | A line with a character outside whitespace and newlines does not trim to nothing. |
| EditingCore.SplitIndent | Sources/OrbitApp/Shared/MarkdownEditingCore.swift:271-277 | The indent and content of an indentation followed by a non-indent text are exactly those two parts. |
| EditingCore.PlainHasNoMark | Sources/OrbitApp/Shared/MarkdownEditingCore.swift:275-294 | Content starting with a plain character carries no mark: each removal step leaves it unchanged. |
| EditingCore.StripMarksBullet | Sources/OrbitApp/Shared/MarkdownEditingCore.swift:289-291 | `stripLinePrefix` removes one "- " before plain content. |
| EditingCore.StripMarksTask | Sources/OrbitApp/Shared/MarkdownEditingCore.swift:285-288 | `stripLinePrefix` removes one "- [ ] " box before plain content. |
| EditingCore.StripMarksNumber | Sources/OrbitApp/Shared/MarkdownEditingCore.swift:282-284 | `stripLinePrefix` removes a number mark "N. " before plain content. |
| EditingCore.StripMarksHeading | Sources/OrbitApp/Shared/MarkdownEditingCore.swift:279-281 | `stripLinePrefix` removes a heading mark of one to six '#' and a space before plain content. |
| EditingCore.ListLineOf | Sources/OrbitApp/Shared/MarkdownEditingCore.swift:183-213 | A list action puts its mark ("- ", "N. " or "- [ ] ") between the indentation and plain content. |
| EditingCore.ListSwitch | Sources/OrbitApp/Shared/MarkdownEditingCore.swift:183-294 | Applying a list action to a line of any list (including the same one) replaces the old mark by the new one and keeps the indentation and the text. |
| EditingCore.ListOfHeading | Sources/OrbitApp/Shared/MarkdownEditingCore.swift:183-281 | A list action applied to a heading line replaces the heading mark by the list mark. |
| EditingCore.HeadingOfPlain | Sources/OrbitApp/Shared/MarkdownEditingCore.swift:171-181 | A heading of level n turns indentation plus plain content into indentation, n '#', a space, and the content. |
| EditingCore.HeadingTwice | Sources/OrbitApp/Shared/MarkdownEditingCore.swift:171-181 | A heading applied to a heading line replaces its mark, so applying level l1 and then l2 is applying l2 once; the same heading twice is applying it once. |
| EditingCore.TransformKeepsIndent | Sources/OrbitApp/Shared/MarkdownEditingCore.swift:171-213 | List actions return blank lines unchanged, and every transform keeps the line's indentation. |
| EditingCore.NumberingStartsAtOne | Sources/OrbitApp/Shared/MarkdownEditingCore.swift:194-201 | The first non-blank line is numbered 1. |
| EditingCore.NumberingConsecutive | Sources/OrbitApp/Shared/MarkdownEditingCore.swift:194-201 | The next non-blank line after a non-blank line gets the next number, whatever blank lines lie between. |
| EditingCore.TransformLineFree | Sources/OrbitApp/Shared/MarkdownEditingCore.swift:171-213 | A transform introduces no line feed into a line. |
| EditingCore.TransformedLinesSplit | Sources/OrbitApp/Shared/MarkdownEditingCore.swift:230-236 | The transformed lines joined with "\n" split back into the same lines. |
| EditingCore.LinesEditEffect | Sources/OrbitApp/Shared/MarkdownEditingCore.swift:215-244 | On an empty text a line action returns exactly its template ("# ", "## ", "### ", "- ", "1. ", "- [ ] ") with the caret at its end. Otherwise the text outside the covering range is unchanged, the range is replaced by the transformed lines joined with "\n", and the new selection starts at the range's start, spans exactly the replacement, lies in bounds and splits back into the transformed lines. |
| EditingCore.LinesOfTerminated | Sources/OrbitApp/Shared/MarkdownEditingCore.swift:230 | A text ending in "\n" splits into its lines and one more empty piece. |
| EditingCore.HeadingPrefixesNextLine | Sources/OrbitApp/Shared/MarkdownEditingCore.swift:171-258 | A heading applied to a covering range that ends in a line feed also writes its mark into the empty piece after it, so the text following the range starts with the heading mark. |
| EditingCore.TransformedLinesSnoc | Sources/OrbitApp/Shared/MarkdownEditingCore.swift:232-234 | Without the counter, transforming one more line appends its transform. |
| EditingCore.HeadingOfEmpty | Sources/OrbitApp/Shared/MarkdownEditingCore.swift:173-180 | The heading of an empty piece is the bare mark. |
| EditingCore.ParseTaskLine | Sources/OrbitApp/Shared/MarkdownEditingCore.swift:296-322 | A line parses as a task exactly when it matches `^([ \t]*)- \[([ xX])\]\s*(.*)$`. It carries the line index as id and line index, the indentation and text groups, and is checked exactly when the marker is x or X. |
| EditingCore.TaskLinesOf | Sources/OrbitApp/Shared/MarkdownEditingCore.swift:142-148 | There are no more tasks than lines. |
| EditingCore.TaskLinesSound | Sources/OrbitApp/Shared/MarkdownEditingCore.swift:142-148 | Every listed task is the parse of the line it names, and the tasks come in strictly ascending line order. |
| EditingCore.ParsedFromLonger | Sources/OrbitApp/Shared/MarkdownEditingCore.swift:142-148 | Tasks parsed from the first n lines are parses of the whole text's lines too, and all lie before line n. |
| EditingCore.ParsedFromSnoc | Sources/OrbitApp/Shared/MarkdownEditingCore.swift:147 | Appending the parse of a line keeps every listed task the parse of its line. |
| EditingCore.InLineOrderSnoc | Sources/OrbitApp/Shared/MarkdownEditingCore.swift:146-147 | Appending a task on a later line than all others keeps the ascending order. |
| EditingCore.TaskLinesComplete | Sources/OrbitApp/Shared/MarkdownEditingCore.swift:142-148 | Every line that parses as a task is listed, as that parse. |
| EditingCore.BoxFree | Sources/OrbitApp/Shared/MarkdownEditingCore.swift:137-138 | The box a toggle writes holds no line feed. |
| EditingCore.ToggledLineFree | Sources/OrbitApp/Shared/MarkdownEditingCore.swift:138 | A toggled line holds no line feed, so rewriting one line keeps the line count. |
| EditingCore.ToggledLineParses | Sources/OrbitApp/Shared/MarkdownEditingCore.swift:128-317 | The line a toggle writes parses as the same task with its checked state flipped. |
| EditingCore.ToggleTaskEffect | Sources/OrbitApp/Shared/MarkdownEditingCore.swift:128-140 | `toggleTask` returns the markdown unchanged for an index out of range or a line that is not a task. Otherwise exactly that line changes, into indentation + "- [" + (x or space) + "] " + text, and the new line parses as that same task with its checked state flipped. |
| EditingCore.ToggleTaskTwice | Sources/OrbitApp/Shared/MarkdownEditingCore.swift:128-140 | Toggling the same line twice writes it in the toggle's own form with its original checked state and leaves every other line alone. |
| EditingCore.ToggleTaskAt | Sources/OrbitApp/Shared/MarkdownEditingCore.swift:128-140 | `ToggleTaskEffect` for a line known to parse as a given task. |
| EditingCore.ToggleTaskTwiceRestores | Sources/OrbitApp/Shared/MarkdownEditingCore.swift:128-140 | A task line already in the toggle's form comes back unchanged after two toggles: the markdown is restored. |
| TextRanges.Substring | Sources/OrbitApp/Shared/MarkdownEditingCore.swift:156 | `substring(with:)` of an in-bounds range has the range's length. |
| TextRanges.ReplaceRange | Sources/OrbitApp/Shared/MarkdownEditingCore.swift:150-244 | `replaceCharacters(in:with:)` keeps the text before the range, puts the new piece at the range's start, and keeps the text after the range after it; the length changes by the piece's length minus the range's. |
| TextRanges.ReplaceRangeShape | Sources/OrbitApp/Shared/MarkdownEditingCore.swift:150-244 | The replaced text spelt out as before + piece + after, and any sub-range of the piece read back at its shifted position. |
| TextRanges.ReplaceRangeIdentity | Sources/OrbitApp/Shared/MarkdownEditingCore.swift:238 | Replacing a range by its own contents changes nothing. |
| TextRanges.LineStart | Sources/OrbitApp/Shared/MarkdownEditingCore.swift:250 | The start of the line holding an offset is at or before it and is the text's start or just after a line terminator. |
| TextRanges.LineStartIsLast | Sources/OrbitApp/Shared/MarkdownEditingCore.swift:250 | No line ends between the line start and the offset: it is the last terminator at or before it. |
| TextRanges.LineEnd | Sources/OrbitApp/Shared/MarkdownEditingCore.swift:246-263 | The end of the line holding an offset, terminator included, is after the offset (unless at the text's end) and is the text's end or just after a terminator (CRLF counted as one). |
| TextRanges.LineEndIsFirst | Sources/OrbitApp/Shared/MarkdownEditingCore.swift:246-263 | No line ends between the offset and its line end: it is the first terminator after it. |
| TextRanges.LineStartIs | Sources/OrbitApp/Shared/MarkdownEditingCore.swift:250 | A line start is pinned down by a terminator (or the text's start) with no terminator after it up to the offset. |
| TextRanges.LineEndIs | Sources/OrbitApp/Shared/MarkdownEditingCore.swift:246-263 | A line end is pinned down by a terminator (or the text's end) with none before it after the offset. |
| TextRanges.LineRangeAt | Sources/OrbitApp/Shared/MarkdownSourceTextView.swift:190 | `lineRange(for:)` of a caret lies in the text and contains the caret. |
| TextRanges.LineRangeIsOneLine | Sources/OrbitApp/Shared/MarkdownSourceTextView.swift:190 | The line range is bounded by line ends or the text's ends, and no line ends strictly inside it. |
| TextRanges.LineRangeAtSameLine | Sources/OrbitApp/Shared/MarkdownEditingCore.swift:246-263 | Every offset inside a line has that same line range. |
| ListContinuation.ContentLength | Sources/OrbitApp/Shared/MarkdownSourceTextView.swift:281-293 | The content length drops exactly the maximal trailing run of LF and CR units: everything after it is LF or CR, and the unit just before it is neither. |
| ListContinuation.LineLengthWithoutTrailingNewlines | Sources/OrbitApp/Shared/MarkdownSourceTextView.swift:281-293 | The counting-down loop returns `ContentLength` of the line. |
| ListContinuation.ContentEndIff | Sources/OrbitApp/Shared/MarkdownSourceTextView.swift:281-293 | A position is the content length exactly when only LF and CR follow it and it does not follow an LF or CR. |
| ListContinuation.ParsedContinuationWellFormed | Sources/OrbitApp/Shared/MarkdownSourceTextView.swift:223-268 | Every parsed continuation keeps the line's content range, has an indentation of spaces and tabs, a bullet among "-*+", or a number within 64 bits and a separator among ".)". |
| ListContinuation.HasContentIff | Sources/OrbitApp/Shared/MarkdownSourceTextView.swift:237 | The text group trims to nothing exactly when it is empty, since `\s+`/`\s*` before it leaves no leading whitespace. |
| ListContinuation.ContinuationOfTask | Sources/OrbitApp/Shared/MarkdownSourceTextView.swift:229-239 | A task line (indent, bullet, whitespace, a box with space, x or X, whitespace, text) continues as a task with that bullet and indentation, whatever the box's state; it has content exactly when the text is non-empty. |
| ListContinuation.TaskLineIsAlsoUnordered | Sources/OrbitApp/Shared/MarkdownSourceTextView.swift:313-323 | The unordered pattern also matches every task line (with the box as text), so task lines have to be tried first. |
| ListContinuation.NoBoxAfter | Sources/OrbitApp/Shared/MarkdownSourceTextView.swift:321-323 | After a bullet and whitespace, a text not opening with '[' leaves no task box. |
| ListContinuation.ContinuationOfUnordered | Sources/OrbitApp/Shared/MarkdownSourceTextView.swift:241-251 | An unordered item that is not a task continues as unordered with its bullet and indentation. |
| ListContinuation.ContinuationOfOrdered | Sources/OrbitApp/Shared/MarkdownSourceTextView.swift:253-265 | An ordered item (its number any run of Unicode decimal digits, `\d`) continues as ordered with its separator and its number, or 1 when the digits are not an ASCII number that fits in a 64-bit `Int`. |
| ListContinuation.ContinuationNone | Sources/OrbitApp/Shared/MarkdownSourceTextView.swift:223-268 | A line whose first character after the indentation is neither a bullet nor a Unicode decimal digit is no list line. |
| ListContinuation.NonAsciiNumberIsOrdered | Sources/OrbitApp/Shared/MarkdownSourceTextView.swift:253-265 | The line "১. x" (Bengali one) is an ordered item numbered 1 with content: `\d` matches the digit and `Int` refuses it. |
| ListContinuation.NonAsciiNumberContinuesFromOne | Sources/OrbitApp/Shared/MarkdownSourceTextView.swift:253-265 | The line "১. x" (Bengali one) is an ordered item: `\d` matches it, `Int` refuses it, so it counts as number 1 and Return inserts "2. ". |
| ListContinuation.MarkerContinuesList | Sources/OrbitApp/Shared/MarkdownSourceTextView.swift:270-279 | The marker a continuation inserts is itself a list line of the same list with no text: the same bullet, an open task box, or the next number `max(n + 1, 1)` with the same separator, written without overflow and read back as 1 once it no longer fits in an `Int`. |
| ListContinuation.MarkerShape | Sources/OrbitApp/Shared/MarkdownSourceTextView.swift:270-279 | A marker is non-empty, holds no line separator and ends in a space. |
| ListContinuation.NextNumberAsWritten | Sources/OrbitApp/Shared/MarkdownSourceTextView.swift:275 | `number + 1` on a 64-bit `Int` traps exactly at `Int.max`, and otherwise gives `max(number + 1, 1)`. |
| ListContinuation.LargestNumberTraps | Sources/OrbitApp/Shared/MarkdownSourceTextView.swift:258 | An ordered item numbered `Int.max` parses as that number, and continuing it traps. |
| ListContinuation.LineContentRangeAt | Sources/OrbitApp/Shared/MarkdownSourceTextView.swift:190-193 | The content range of the caret's line starts where its line range starts and ends no later than it. |
| ListContinuation.AtContentEndIff | Sources/OrbitApp/Shared/MarkdownSourceTextView.swift:190-198 | The caret is at the end of its line's content exactly when everything from it to its line's end is LF or CR, and it is at the line's start or does not follow an LF or CR. |
| ListContinuation.ContinuationAt | Sources/OrbitApp/Shared/MarkdownSourceTextView.swift:183-206 | A continuation is found only for an empty selection within the text at the end of its line's content, and it carries that line's content range. |
| ListContinuation.ListEnter | Sources/OrbitApp/Shared/MarkdownSourceTextView.swift:183-221 | When the handler acts it leaves a caret (empty selection) within the new text. |
| ListContinuation.ListEnterContinues | Sources/OrbitApp/Shared/MarkdownSourceTextView.swift:208-210 | Return on a list line with text inserts "\n" and the next marker at the caret and moves the caret past them; the text before and after the caret is kept. |
| ListContinuation.ListEnterExits | Sources/OrbitApp/Shared/MarkdownSourceTextView.swift:211-217 | Return on a list item with no text removes the line's content and puts the caret at the line's start; nothing else changes. |
| ListContinuation.MarkerLineAfterBreak | Sources/OrbitApp/Shared/MarkdownSourceTextView.swift:208-210 | After a continuation, the new line's content is exactly the marker. |
| ListContinuation.MarkerAtCaret | Sources/OrbitApp/Shared/MarkdownSourceTextView.swift:183-206 | A caret at the end of a line whose content is a marker sits on an item of the next kind with no text, so a second Return exits the list. |
| ListContinuation.ContinuationAtCaret | Sources/OrbitApp/Shared/MarkdownSourceTextView.swift:190-206 | The list item at a caret is read from the content of the caret's line. |
| ListContinuation.CommandTextView.constructor | Sources/OrbitApp/Shared/MarkdownSourceTextView.swift:160-161 | The view starts with the given text and selection. |
| ListContinuation.CommandTextView.HandleListEnter | Sources/OrbitApp/Shared/MarkdownSourceTextView.swift:183-221 | The handler reports handled exactly when `ListEnter` acts; then the text and selection are its result, otherwise they are unchanged. A list item without text whose change is refused is still reported handled, with nothing changed. |
| ListContinuation.CommandTextView.DoCommand | Sources/OrbitApp/Shared/MarkdownSourceTextView.swift:163-181 | Return with Shift inserts a plain line break. Return without Shift is the list handler's edit when it acts, else a submit with nothing changed. Escape cancels and other commands pass on, both with nothing changed. |
| LineClassifier.ClampLevel | Sources/OrbitApp/SessionFeature/SessionView.swift:577 | `min(max(count, 1), 6)` lies in 1...6 and is the count itself when that is in 1...6. |
| LineClassifier.RenderedLines | Sources/OrbitApp/SessionFeature/SessionView.swift:470-481 | The note view shows one row per piece of the "\n" split. |
| LineClassifier.TaskIndexHas | Sources/OrbitApp/SessionFeature/SessionView.swift:473 | Task lines in ascending line order have distinct line indices, so `Dictionary(uniqueKeysWithValues:)` maps each one's index to it. |
| LineClassifier.TaskIndexKey | Sources/OrbitApp/SessionFeature/SessionView.swift:473 | Every key of the index is some task's line index and maps to that task. |
| LineClassifier.TaskIndexSound | Sources/OrbitApp/SessionFeature/SessionView.swift:471-473 | A key of the note's task index is a line of the split that parses as a task, and maps to that parse. |
| LineClassifier.RenderedTaskRow | Sources/OrbitApp/SessionFeature/SessionView.swift:471-486 | A line that parses as a task is shown as that task's row: the lookup uses the same indices as `taskLines`. |
| LineClassifier.RenderedOtherRow | Sources/OrbitApp/SessionFeature/SessionView.swift:476-507 | Any other line is shown by the rest of the precedence chain: heading, unordered, ordered, empty, plain. |
| LineClassifier.HeadingOf | Sources/OrbitApp/SessionFeature/SessionView.swift:566-581 | Indentation, one to six '#', whitespace and a text parse as a heading with that indentation and text, whose level is the number of '#'. |
| LineClassifier.HeadingParts | Sources/OrbitApp/SessionFeature/SessionView.swift:566-581 | Every heading is its indentation, a run of '#' as long as its level (1 to 6), non-empty whitespace, its text and the end of input. |
| LineClassifier.SevenHashesNoHeading | Sources/OrbitApp/SessionFeature/SessionView.swift:631-633 | Seven '#' after the indentation are not a heading. |
| LineClassifier.UnorderedOf | Sources/OrbitApp/SessionFeature/SessionView.swift:583-593 | Indentation, a bullet among "-*+", whitespace and a text parse as an unordered line with that indentation and text, and not as a heading. |
| LineClassifier.OrderedOf | Sources/OrbitApp/SessionFeature/SessionView.swift:595-606 | Indentation, digits, '.' or ')', whitespace and a text parse as an ordered line that keeps the digits as written; the line is neither a heading nor an unordered line. |
| LineClassifier.OrderedNotOther | Sources/OrbitApp/SessionFeature/SessionView.swift:631-641 | A digit after the indentation matches neither the heading nor the unordered pattern. |
| LineClassifier.EmptyLineMatchesNothing | Sources/OrbitApp/SessionFeature/SessionView.swift:631-641 | The empty line matches none of the three patterns. |
| LineClassifier.HeadingView | Sources/OrbitApp/SessionFeature/SessionView.swift:484-488 | A heading line that is not a task is shown as that heading. |
| LineClassifier.UnorderedView | Sources/OrbitApp/SessionFeature/SessionView.swift:489-494 | An unordered line that is not a task is shown with the bullet "•", its text and its indentation. |
| LineClassifier.OrderedView | Sources/OrbitApp/SessionFeature/SessionView.swift:495-500 | An ordered line that is not a task is shown with its digits and a period, whichever separator it used. |
| LineClassifier.EmptyViewIff | Sources/OrbitApp/SessionFeature/SessionView.swift:501-503 | Without a task, a line is shown as the empty row exactly when it is empty. |
| LineClassifier.PlainViewIff | Sources/OrbitApp/SessionFeature/SessionView.swift:504-507 | Without a task, a line is shown as plain text exactly when it is non-empty and matches no pattern. |
| LineClassifier.IndentationWidth | Sources/OrbitApp/SessionFeature/SessionView.swift:548-553 | The indentation width is six points per column. |
| LineClassifier.ColumnsConcat | Sources/OrbitApp/SessionFeature/SessionView.swift:549-551 | The column count adds up over concatenation. |
| LineClassifier.ColumnsBounds | Sources/OrbitApp/SessionFeature/SessionView.swift:549-551 | Each character counts at least one and at most four columns, and the count equals the length exactly when there is no tab. |
| DateTime.ParseFormatMinute | Sources/OrbitApp/Dependencies/SessionStore.swift:305-311 | Formatting a date as "yyyy-MM-dd HH:mm" and reading it back with the same format gives the same date. |
| DateTime.ParseMinute | Sources/OrbitApp/Dependencies/SessionStore.swift:305-311 | Whatever the strict "yyyy-MM-dd HH:mm" reader accepts formats back to the same string. |
| DateTime.FormatMinuteFields | Sources/OrbitApp/Dependencies/SessionStore.swift:305-311 | Where each zero-padded field and each separator sits in "yyyy-MM-dd HH:mm". |
| DateTime.FormatMinuteInjective | Sources/OrbitApp/Dependencies/SessionStore.swift:305-311 | Distinct dates format to distinct "yyyy-MM-dd HH:mm" strings. |
| DateTime.FileStampInjective | Sources/OrbitApp/SessionFeature/Session.swift:15-21 | Distinct dates give distinct "yyyy-MM-dd-HHmm" stamps. |
| DateTime.AtTimeOf | Sources/OrbitApp/Dependencies/SessionStore.swift:200 | The combined date falls on the given day and has the given time of day. |
| DateTime.ParseDayAndTime | Sources/OrbitApp/Dependencies/SessionStore.swift:200 | The day stamp "yyyy-MM-dd", a space and the "HH:mm" of a date on that day read back as that date. |
| DateTime.BeforeTrichotomy | Sources/OrbitApp/Dependencies/SessionStore.swift:70 | Two dates are ordered one way or the other unless they are equal, so `<` on timestamps is a strict total order. |
| DateTime.BeforeTransitive | Sources/OrbitApp/Dependencies/SessionStore.swift:70 | The order on dates is transitive. |
| FocusModes.RawValue | Sources/OrbitApp/FocusModeFeature/FocusMode.swift:3-8 | Each mode's raw value is non-empty lowercase text without '-' or '.'. |
| FocusModes.RawValueInjective | Sources/OrbitApp/FocusModeFeature/FocusMode.swift:3-8 | Distinct modes have distinct raw values. |
| SessionTags.NormalizedNameIdempotent | Sources/OrbitApp/SessionFeature/SessionTag.swift:17-19 | A tag renamed to its normalised name normalises to the same name. |
| SessionTags.BuiltInsShape | Sources/OrbitApp/SessionFeature/SessionTag.swift:10-15 | The built-ins are coding, researching, email and meeting, in that order, all flagged built-in, with distinct ids and names. |
| SessionTags.BuiltInsNormalized | Sources/OrbitApp/SessionFeature/SessionTag.swift:10-19 | Every built-in name is its own normalisation. |
| SessionTags.BuiltInNamed | Sources/OrbitApp/Dependencies/SessionStore.swift:219 | The lookup by name finds a tag exactly when the name is a built-in's, and then it finds that built-in. |
| CapturedItems.PrefixesPrefixFree | Sources/OrbitApp/SessionFeature/CapturedItem.swift:58-67 | No item-type prefix starts another type's, so a string starts with at most one of them and the order of the alternatives does not matter. |
| CapturedItems.ParseItemTypePrefix | Sources/OrbitApp/SessionFeature/CapturedItem.swift:58-67 | A type is found only when the string starts with its prefix, and nothing is found only when it starts with none. |
| CapturedItems.ParseItemTypePrefixOf | Sources/OrbitApp/SessionFeature/CapturedItem.swift:58-67 | A string that starts with a type's prefix parses as that type (the match is not delimited). |
| CapturedItems.Parse | Sources/OrbitApp/SessionFeature/CapturedItem.swift:24-55 | The method, with its whitespace-skipping loop, returns what `CaptureParse` specifies. |
| CapturedItems.CaptureParseNoneIff | Sources/OrbitApp/SessionFeature/CapturedItem.swift:30-46 | Nothing is captured exactly when the input is blank, or is a type prefix followed only by whitespace. |
| CapturedItems.CaptureParseSome | Sources/OrbitApp/SessionFeature/CapturedItem.swift:30-54 | A captured item carries the given id, mode and timestamp and non-empty trimmed content. Its type is the leading prefix's with the trimmed rest as content, or a note with the whole trimmed input as content. |
| CapturedItems.CaptureParsePrefixed | Sources/OrbitApp/SessionFeature/CapturedItem.swift:30-54 | A type prefix, a space and trimmed text is captured as that type with exactly that text. |
| CapturedItems.CaptureParseUnprefixed | Sources/OrbitApp/SessionFeature/CapturedItem.swift:30-54 | Trimmed text that starts with no type prefix is captured whole as a note. |
| Sessions.Id | Sources/OrbitApp/SessionFeature/Session.swift:4 | A session's id is its file name. |
| Sessions.FileNameShape | Sources/OrbitApp/SessionFeature/Session.swift:11-13 | The file name is the 15-character start stamp, '-', the mode's raw value and ".md". |
| Sessions.FileNameInjective | Sources/OrbitApp/SessionFeature/Session.swift:11-21 | Two sessions share a file name exactly when they started in the same minute in the same mode. |
| FocusDomain.Title | Sources/OrbitApp/Shared/FocusDomain.swift:9-16 | Each priority's title ("None", "Low", "Medium", "High") is non-empty and capitalised. |
| FocusDomain.TitleInjective | Sources/OrbitApp/Shared/FocusDomain.swift:9-16 | Distinct priorities have distinct titles. |
| FocusDomain.DefaultSessionName | Sources/OrbitApp/Shared/FocusDomain.swift:75-77 | The default name is the start as "yyyy-MM-dd HH:mm": reading it back gives the start. |
| FocusDomain.NormalizersIdempotent | Sources/OrbitApp/Shared/FocusDomain.swift:79-85 | `normalizedCategoryName` and `normalizedTag` are trim-then-lowercase and idempotent. |
| FocusDomain.ParseTagInput | Sources/OrbitApp/Shared/FocusDomain.swift:87-99 | The seen-set loop returns `TagInputTags`: the first occurrences of the non-empty normalised comma-separated pieces. |
| FocusDomain.TagInputTagOrigin | Sources/OrbitApp/Shared/FocusDomain.swift:87-99 | Each parsed tag is the normalisation of some comma-separated piece. |
| FocusDomain.TagInputTagsSound | Sources/OrbitApp/Shared/FocusDomain.swift:87-99 | Each parsed tag is a non-empty normalised piece. |
| FocusDomain.TagInputTagElement | Sources/OrbitApp/Shared/FocusDomain.swift:87-99 | Each parsed tag is non-empty, its own normalisation, and free of commas. |
| FocusDomain.TagInputTagsComplete | Sources/OrbitApp/Shared/FocusDomain.swift:87-99 | Every piece whose normalisation is non-empty contributes that normalisation. |
| FocusDomain.TagInputTagsMember | Sources/OrbitApp/Shared/FocusDomain.swift:87-99 | A string is a parsed tag exactly when it is a non-empty normalised piece. |
| FocusDomain.TagInputTagsProperties | Sources/OrbitApp/Shared/FocusDomain.swift:87-99 | The parsed tags are pairwise distinct, non-empty, normalised and comma-free, are exactly the non-empty normalised pieces, and come in the order of their first occurrences. |
| FocusDomain.MarkdownFileNameInjective | Sources/OrbitApp/Shared/FocusDomain.swift:101-103 | Export file names are equal exactly when the start minutes and the lower-cased session ids are. |
| TagStore.NameKeys | Sources/OrbitApp/Dependencies/TagStore.swift:86 | One normalised name per tag, in order. |
| TagStore.SeenIff | Sources/OrbitApp/Dependencies/TagStore.swift:82-88 | A name is in the seen set exactly when it is non-empty and is some tag's normalised name. |
| TagStore.NormalizedCatalog | Sources/OrbitApp/Dependencies/TagStore.swift:79-97 | `normalizedCatalog` returns the built-ins followed by the custom entries sorted by name. |
| TagStore.CollectCustoms | Sources/OrbitApp/Dependencies/TagStore.swift:82-93 | The seen-set loop collects `Customs`: one non-built-in entry per new, non-empty, non-built-in normalised name. |
| TagStore.CustomsSnoc | Sources/OrbitApp/Dependencies/TagStore.swift:85-93 | One more input tag adds one custom entry, with the tag's id and normalised name, exactly when that name is non-empty, unseen and no built-in's. |
| TagStore.CustomsNamesSeen | Sources/OrbitApp/Dependencies/TagStore.swift:85-93 | Every custom entry's name has been seen. |
| TagStore.CustomsWellFormed | Sources/OrbitApp/Dependencies/TagStore.swift:85-93 | Every custom entry is flagged not built-in, has a non-empty normalised name, and shares it with no built-in. |
| TagStore.CustomsDistinct | Sources/OrbitApp/Dependencies/TagStore.swift:85-93 | The custom entries have pairwise distinct names. |
| TagStore.CustomsOrigin | Sources/OrbitApp/Dependencies/TagStore.swift:85-93 | Each custom entry comes from an input tag with its id and normalised name, and no earlier input tag has that name: the first occurrence wins. |
| TagStore.NameLeTotalPreorder | Sources/OrbitApp/Dependencies/TagStore.swift:95 | Comparing names is a total preorder, so the sort is well defined. |
| TagStore.CatalogStartsWithBuiltIns | Sources/OrbitApp/Dependencies/TagStore.swift:96 | The catalog begins with exactly the built-ins, in order. |
| TagStore.CatalogCustomsSorted | Sources/OrbitApp/Dependencies/TagStore.swift:95-96 | The rest of the catalog is sorted by name and is a permutation of the custom entries. |
| TagStore.BuiltInsNamesDistinct | Sources/OrbitApp/Dependencies/TagStore.swift:80 | The built-ins' normalised names are pairwise distinct, so the lookup dictionary is well formed. |
| TagStore.CustomEntryNotBuiltIn | Sources/OrbitApp/Dependencies/TagStore.swift:90-92 | A custom entry never shares its normalised name with a built-in. |
| TagStore.CatalogNamesDistinct | Sources/OrbitApp/Dependencies/TagStore.swift:79-97 | No two catalog entries share a normalised name. |
| TagStore.CustomsOfBuiltInNamed | Sources/OrbitApp/Dependencies/TagStore.swift:90 | Tags that all normalise to built-in names contribute no custom entry. |
| TagStore.CustomsAppendFresh | Sources/OrbitApp/Dependencies/TagStore.swift:85-93 | Appending well-formed custom entries with distinct, unseen names appends them unchanged to the customs. |
| TagStore.SeenAppendUnseen | Sources/OrbitApp/Dependencies/TagStore.swift:82-88 | A name that no appended tag normalises to stays unseen. |
| TagStore.BuiltInsContributeNothing | Sources/OrbitApp/Dependencies/TagStore.swift:49 | Normalising the built-ins alone (the seeded catalog) yields no custom entry. |
| TagStore.CatalogIdempotent | Sources/OrbitApp/Dependencies/TagStore.swift:57-61 | Normalising a normalised catalog changes nothing, so a loaded catalog is rewritten at most once. |
| HotkeyHints.Hint | Sources/OrbitApp/Shared/HotkeyHint.swift:4-26 | The method returns `HintOf`: the shortcut uppercased when its key part is missing or empty, else the modifier glyphs followed by the key's glyph. |
| HotkeyHints.ModifierGlyphs | Sources/OrbitApp/Shared/HotkeyHint.swift:19-23 | The conditional appends build the glyphs of the set flags, in the order control, option, shift, command. |
| HotkeyHints.GlyphsOrdered | Sources/OrbitApp/Shared/HotkeyHint.swift:14-23 | The glyph prefix has at most four glyphs in strictly increasing rank (control, option, shift, command), and each glyph is present exactly when its flag is set. |
| HotkeyHints.FlagsOfMembership | Sources/OrbitApp/Shared/HotkeyHint.swift:13-17 | The flags depend only on which tokens occur, not on their order or repetition (the source takes a `Set`). |
| HotkeyHints.HintShape | Sources/OrbitApp/Shared/HotkeyHint.swift:9-25 | With a non-empty key part, the hint is the ordered glyphs of the other parts followed by the key's glyph. |
| HotkeyHints.HintOfBlank | Sources/OrbitApp/Shared/HotkeyHint.swift:9-11 | A shortcut made only of '+' and whitespace has no key part and is shown uppercased. |
| HotkeyHints.KeyGlyphCaseInsensitive | Sources/OrbitApp/Shared/HotkeyHint.swift:28-51 | The key glyph ignores the letter case of the key. |
| HotkeyHints.KeyGlyphLetter | Sources/OrbitApp/Shared/HotkeyHint.swift:48-49 | A single letter is shown as that capital letter. |
| Hotkeys.FlagMaskStep | Sources/OrbitApp/Dependencies/HotkeyManager.swift:141-154 | Or-ing in one more flag, or nothing, sets exactly that flag in the mask. |
| Hotkeys.ModifierMaskOfPresent | Sources/OrbitApp/Dependencies/HotkeyManager.swift:141-154 | The folded mask is the or of the flags of the tokens present. |
| Hotkeys.ModifierMaskMembership | Sources/OrbitApp/Dependencies/HotkeyManager.swift:141-154 | Reordering or repeating modifier tokens does not change the mask. |
| Hotkeys.ModifierMaskBits | Sources/OrbitApp/Dependencies/HotkeyManager.swift:141-154 | The mask only ever holds the four modifier bits. |
| Hotkeys.LetterKeyCodesDistinct | Sources/OrbitApp/Dependencies/HotkeyManager.swift:177-185 | Distinct letters have distinct virtual key codes. |
| Hotkeys.ParseShortcutSomeIff | Sources/OrbitApp/Dependencies/HotkeyManager.swift:136-158 | A shortcut parses exactly when it has a last '+'-separated part and that part is a single letter a to z. |
| Hotkeys.ParseShortcutCaseInsensitive | Sources/OrbitApp/Dependencies/HotkeyManager.swift:137 | Parsing ignores letter case. |
| Hotkeys.RemovalValid | Sources/OrbitApp/Dependencies/HotkeyManager.swift:112-116 | Dropping a shortcut and its id keeps the registry consistent: ids below `nextID`, one action per registered id, no id shared. |
| Hotkeys.InsertionValid | Sources/OrbitApp/Dependencies/HotkeyManager.swift:78-81 | The next id is unused, and adding a shortcut under it keeps the registry consistent. |
| Hotkeys.HotkeyCenter.constructor | Sources/OrbitApp/Dependencies/HotkeyManager.swift:46-54 | The registry starts empty with `nextID` 1, and consistent. |
| Hotkeys.HotkeyCenter.UnregisterLocked | Sources/OrbitApp/Dependencies/HotkeyManager.swift:112-116 | The shortcut's entry and its action go, if it had one; nothing else changes, and the registry stays consistent. |
| Hotkeys.HotkeyCenter.Unregister | Sources/OrbitApp/Dependencies/HotkeyManager.swift:84-88 | The same removal; unregistering an unknown shortcut changes nothing. |
| Hotkeys.HotkeyCenter.Register | Sources/OrbitApp/Dependencies/HotkeyManager.swift:56-82 | Any entry for the shortcut is removed first. Then, when the shortcut parses and the system accepts it, it is stored under the old `nextID`, its action is reachable by that id, and `nextID` advances; otherwise only the removal happens. |
| Hotkeys.HotkeyCenter.Store | Sources/OrbitApp/Dependencies/HotkeyManager.swift:78-81 | A shortcut with no entry is stored under `nextID` with its action, and `nextID` advances. |
| SessionCodec.TagNames | Sources/OrbitApp/Dependencies/SessionStore.swift:52-54 | One name per tag, in order. |
| SessionCodec.ItemSections | Sources/OrbitApp/Dependencies/SessionStore.swift:70-74 | Each item contributes exactly three lines: its header, its content and a blank line. |
| SessionCodec.ItemSectionsSnoc | Sources/OrbitApp/Dependencies/SessionStore.swift:70-74 | One more item appends its header, content and blank line. |
| SessionCodec.TimestampLeTotalPreorder | Sources/OrbitApp/Dependencies/SessionStore.swift:70 | Comparing items by timestamp is a total preorder. |
| SessionCodec.SortedItemsOrdered | Sources/OrbitApp/Dependencies/SessionStore.swift:70 | The rendered items are a permutation of the session's items in ascending timestamp order. |
| SessionCodec.Render | Sources/OrbitApp/Dependencies/SessionStore.swift:51-77 | The appending method builds the header line, the tags line, the start line, the end line only when there is an end, a blank line, "## Captured Items", a blank line, then each sorted item's three lines. The join is trimmed of newlines and given one final "\n". |
| SessionCodec.RunUntil | Sources/OrbitApp/Dependencies/SessionStore.swift:255 | The run is the longest prefix without the character: it stops at its first occurrence or at the end. |
| SessionCodec.RunUntilIs | Sources/OrbitApp/Dependencies/SessionStore.swift:255 | A run is pinned down by where the character first occurs. |
| SessionCodec.Drop | Sources/OrbitApp/Dependencies/SessionStore.swift:116 | `dropFirst(n)` is the suffix after n characters, or nothing when the string is shorter. |
| SessionCodec.ParseNewHeader | Sources/OrbitApp/Dependencies/SessionStore.swift:246-260 | An accepted new-format header is "# Session: ", a non-empty title free of '-', "- " and a non-empty date text. |
| SessionCodec.NewHeaderOf | Sources/OrbitApp/Dependencies/SessionStore.swift:246-260 | Every line of that shape is read as a new-format header with that title and date text. |
| SessionCodec.LegacyName | Sources/OrbitApp/Dependencies/SessionStore.swift:271-276 | Each mode's header word is non-empty and free of '-'. |
| SessionCodec.LegacyModeOf | Sources/OrbitApp/Dependencies/SessionStore.swift:271-276 | A mode is found only when the text starts with its word, and none only when it starts with no mode word. |
| SessionCodec.LegacyModeOfName | Sources/OrbitApp/Dependencies/SessionStore.swift:271-276 | A mode word names its mode, whatever follows it. |
| SessionCodec.ParseLegacyHeader | Sources/OrbitApp/Dependencies/SessionStore.swift:262-281 | An accepted legacy header is "# Session: ", a mode word, " - " and a non-empty date text. |
| SessionCodec.LegacyHeaderOf | Sources/OrbitApp/Dependencies/SessionStore.swift:262-281 | Every line of that shape is read as a legacy header with that mode and date text. |
| SessionCodec.ItemHeaderSound | Sources/OrbitApp/Dependencies/SessionStore.swift:283-303 | A line read as an item header starts with "### ", a non-empty time without spaces, " - " and the type's prefix; anything may follow, since the parser is not end-anchored. |
| SessionCodec.ItemHeaderSteps | Sources/OrbitApp/Dependencies/SessionStore.swift:290-300 | When each step of the item-header parser succeeds, the header carries the time and the type read. |
| SessionCodec.ItemHeaderOf | Sources/OrbitApp/Dependencies/SessionStore.swift:283-303 | "### ", a time without spaces, " - ", a type prefix and any tail read back as exactly that time and type. |
| SessionCodec.ItemHeaderOfParts | Sources/OrbitApp/Dependencies/SessionStore.swift:290-300 | `ItemHeaderOf` stated for a line split into the prefix, the time and what follows. |
| SessionCodec.NormalizedSessionTitle | Sources/OrbitApp/Dependencies/SessionStore.swift:238-244 | The title is the trimmed input, or "Focus" when that is empty or "Focus Session"; it is never empty, never "Focus Session", and trimmed. |
| SessionCodec.NormalizedSessionTitleKeeps | Sources/OrbitApp/Dependencies/SessionStore.swift:238-244 | A trimmed, non-empty title other than "Focus Session" is kept as it is. |
| SessionCodec.NormalizedSessionTitleIdempotent | Sources/OrbitApp/Dependencies/SessionStore.swift:238-244 | Normalising a normalised title changes nothing. |
| SessionCodec.TagFor | Sources/OrbitApp/Dependencies/SessionStore.swift:228-232 | The tag for a name has that name, is built-in exactly when the name is a built-in's, and otherwise carries the fresh id. |
| SessionCodec.TagsNamed | Sources/OrbitApp/Dependencies/SessionStore.swift:223-233 | One tag per name, in order, the i-th using the i-th fresh id. |
| SessionCodec.TagsOfLineProperties | Sources/OrbitApp/Dependencies/SessionStore.swift:215-236 | The tags read from a line have distinct, non-empty, normalised names, each the normalisation of a comma-separated piece of the text after "Tags:"; exactly the built-in names become built-in tags. |
| SessionCodec.TagsFromLine | Sources/OrbitApp/Dependencies/SessionStore.swift:215-236 | The seen-set loop returns `TagsOfLine`: nothing for a blank tags text, else the tags named by the first occurrences of the normalised pieces. |
| SessionCodec.TagsOfComponents | Sources/OrbitApp/Dependencies/SessionStore.swift:219-235 | The loop over the comma-separated pieces, with its seen-set, returns one tag per distinct non-empty normalised piece in first-occurrence order: the built-in tag for a built-in name, otherwise a fresh custom tag. |
| SessionCodec.MetadataStep | Sources/OrbitApp/Dependencies/SessionStore.swift:110-127 | A line without a metadata prefix leaves the scan as it is; a line with one marks the document as new-format. |
| SessionCodec.MetadataOfConcat | Sources/OrbitApp/Dependencies/SessionStore.swift:110-127 | Scanning two stretches of lines is scanning the first and then the second. |
| SessionCodec.MetadataOfNeutral | Sources/OrbitApp/Dependencies/SessionStore.swift:110-127 | Lines without metadata leave the scan as it is. |
| SessionCodec.LastTagsLineWins | Sources/OrbitApp/Dependencies/SessionStore.swift:110-113 | The last tags line decides the tags, whatever came before it, and marks the document as new-format. |
| SessionCodec.TagsKept | Sources/OrbitApp/Dependencies/SessionStore.swift:110-127 | Lines without a tags prefix keep the tags, and never unmark the document. |
| SessionCodec.StartsItemIff | Sources/OrbitApp/Dependencies/SessionStore.swift:189 | The character test is `hasPrefix("### ")`. |
| SessionCodec.ContentRun | Sources/OrbitApp/Dependencies/SessionStore.swift:189-195 | The content run lies within the lines. |
| SessionCodec.ContentRunIs | Sources/OrbitApp/Dependencies/SessionStore.swift:189-195 | The content run ends exactly at the next "### " line, or at the end. |
| SessionCodec.ScannedItemsContents | Sources/OrbitApp/Dependencies/SessionStore.swift:197-198 | Every item read back has non-empty, trimmed content. |
| SessionCodec.Stamped | Sources/OrbitApp/Dependencies/SessionStore.swift:200-209 | The i-th item gets the i-th fresh id, its content and type, and the start day with its header time, or the session start when that does not parse. |
| SessionCodec.ScanSkip | Sources/OrbitApp/Dependencies/SessionStore.swift:182-185 | A line that is not an item header is skipped. |
| SessionCodec.ScanItem | Sources/OrbitApp/Dependencies/SessionStore.swift:182-209 | An item header followed by content lines up to the next "### " line (or the end) yields one item with the joined, trimmed non-empty lines, or none when that is empty; the scan resumes at the next "### " line. |
| SessionCodec.ScanHeaderAt | Sources/OrbitApp/Dependencies/SessionStore.swift:182-209 | The scan at an item header, in terms of its content run. |
| SessionCodec.CollectContent | Sources/OrbitApp/Dependencies/SessionStore.swift:187-195 | The inner loop stops at the next "### " line or the end, passes no such line before it, and keeps exactly the non-empty lines in between. |
| SessionCodec.ParseItems | Sources/OrbitApp/Dependencies/SessionStore.swift:173-213 | `parseItems` returns `ParsedItems`: the scanned drafts, stamped with fresh ids and timestamps. |
| SessionCodec.DocumentLines | Sources/OrbitApp/Dependencies/SessionStore.swift:88 | `components(separatedBy: .newlines)` has at least one piece. |
| SessionCodec.NewFormatParse | Sources/OrbitApp/Dependencies/SessionStore.swift:87-142 | `parseNew` fails only with one of its four messages: missing header, invalid new header, invalid start date, missing new metadata. |
| SessionCodec.BuiltInTag | Sources/OrbitApp/Dependencies/SessionStore.swift:410-423 | Each mode's built-in tag is the built-in named after the mode. |
| SessionCodec.LegacyFormatParse | Sources/OrbitApp/Dependencies/SessionStore.swift:144-171 | `parseLegacy` fails only with one of its three messages; a session it reads is titled "Focus", has exactly one built-in tag and no end. |
| SessionCodec.ParsedDocument | Sources/OrbitApp/Dependencies/SessionStore.swift:79-85 | `parse` fails exactly when both readings fail, and then with the legacy reader's error. |
| SessionCodec.MetadataPrefixStep | Sources/OrbitApp/Dependencies/SessionStore.swift:110-127 | One step of the scan over the lines after the first. |
| SessionCodec.NewFormatParseAfterHeader | Sources/OrbitApp/Dependencies/SessionStore.swift:101-141 | After a valid header and start date, `parseNew` fails for want of metadata exactly when the scan saw none. Otherwise it returns the normalised title, the scanned tags, start and end, and the items parsed from all lines with the scanned start. |
| SessionCodec.ScanMetadata | Sources/OrbitApp/Dependencies/SessionStore.swift:105-127 | The metadata loop over the lines after the header computes `MetadataOf` from the header start. |
| SessionCodec.ParseNew | Sources/OrbitApp/Dependencies/SessionStore.swift:87-142 | The method returns `NewFormatParse`. |
| SessionCodec.ParseLegacy | Sources/OrbitApp/Dependencies/SessionStore.swift:144-171 | The method returns `LegacyFormatParse`. |
| SessionCodec.Parse | Sources/OrbitApp/Dependencies/SessionStore.swift:79-85 | The method returns `ParsedDocument`. |
| SessionRoundTrip.TagInputTagsOf | Sources/OrbitApp/Dependencies/SessionStore.swift:223-233 | Distinct plain names joined by ", " are read back as exactly those names. |
| SessionRoundTrip.TagsTextOfTagsLine | Sources/OrbitApp/Dependencies/SessionStore.swift:216 | The text after "Tags:" on a rendered tags line is the names joined by ", ", the space after the colon trimmed away. |
| SessionRoundTrip.TagsOfTagsLine | Sources/OrbitApp/Dependencies/SessionStore.swift:215-236 | The tags line of a session with distinct plain names reads back as tags with those names. |
| SessionRoundTrip.ItemSectionsEnd | Sources/OrbitApp/Dependencies/SessionStore.swift:70-74 | The item sections end with the last item's content and a blank line. |
| SessionRoundTrip.SortedItemsFrom | Sources/OrbitApp/Dependencies/SessionStore.swift:70 | Every rendered item is one of the session's items. |
| SessionRoundTrip.HeaderSectionsShape | Sources/OrbitApp/Dependencies/SessionStore.swift:56-68 | The header sections start with '#' and end with the items heading and a blank line. |
| SessionRoundTrip.RenderedIsJoin | Sources/OrbitApp/Dependencies/SessionStore.swift:76 | For a framed document the trim takes away only the final blank line, which the final newline puts back: the document is the join of its sections and "\n". |
| SessionRoundTrip.ContentPiecesFree | Sources/OrbitApp/Dependencies/SessionStore.swift:72 | The lines of item content separated by line feeds hold no line break. |
| SessionRoundTrip.RenderedLines | Sources/OrbitApp/Dependencies/SessionStore.swift:76-88 | The rendered document splits into the header sections and, per item, its header, its content lines and a blank line. |
| SessionRoundTrip.HeaderLineParse | Sources/OrbitApp/Dependencies/SessionStore.swift:57 | The header line reads back as a new-format header whose title keeps the space before " - ", and whose date parses as the start. |
| SessionRoundTrip.TagsStep | Sources/OrbitApp/Dependencies/SessionStore.swift:111-113 | The tags line sets the tags named in it, in order. |
| SessionRoundTrip.StartedStep | Sources/OrbitApp/Dependencies/SessionStore.swift:114-119 | The start line sets the start it shows. |
| SessionRoundTrip.EndedStep | Sources/OrbitApp/Dependencies/SessionStore.swift:120-125 | The end line sets the end it shows. |
| SessionRoundTrip.MetadataLinesOf | Sources/OrbitApp/Dependencies/SessionStore.swift:110-127 | The scan of the tags, start and end lines recovers the tags by name, the start and the end. |
| SessionRoundTrip.DocMetadata | Sources/OrbitApp/Dependencies/SessionStore.swift:110-127 | The scan of all lines after the header recovers the tags by name, the start and the end, and sees metadata. |
| SessionRoundTrip.NotItemHeader | Sources/OrbitApp/Dependencies/SessionStore.swift:291 | A line that does not start with "### " is not an item header. |
| SessionRoundTrip.ScanSkipLines | Sources/OrbitApp/Dependencies/SessionStore.swift:182-185 | Lines none of which is an item header contribute no items. |
| SessionRoundTrip.ItemHeaderParse | Sources/OrbitApp/Dependencies/SessionStore.swift:71 | A rendered item header reads back as the item's "HH:mm" and type. |
| SessionRoundTrip.ContentOfBlock | Sources/OrbitApp/Dependencies/SessionStore.swift:191-197 | An item's content lines and blank line read back as the content. |
| SessionRoundTrip.Drafts | Sources/OrbitApp/Dependencies/SessionStore.swift:70-74 | One draft per item: its content, its formatted time and its type. |
| SessionRoundTrip.ScanBlock | Sources/OrbitApp/Dependencies/SessionStore.swift:182-209 | An item's header, content lines and blank line read back as its draft. |
| SessionRoundTrip.ScanItemLines | Sources/OrbitApp/Dependencies/SessionStore.swift:173-213 | The item lines read back as the items' drafts, in order. |
| SessionRoundTrip.ScanDocLines | Sources/OrbitApp/Dependencies/SessionStore.swift:173-213 | The whole document's lines read back as the drafts of the items in rendered order; the header and metadata lines contribute none. |
| SessionRoundTrip.Reidentified | Sources/OrbitApp/Dependencies/SessionStore.swift:204 | The items with the i-th fresh id in place of the i-th id. |
| SessionRoundTrip.StampedDrafts | Sources/OrbitApp/Dependencies/SessionStore.swift:200 | Times on the start day read back as the items' own timestamps. |
| SessionRoundTrip.ParsedDocItems | Sources/OrbitApp/Dependencies/SessionStore.swift:173-213 | The items read back are the session's items in rendered order, with the fresh ids. |
| SessionRoundTrip.RenderParseRoundTrip | Sources/OrbitApp/Dependencies/SessionStore.swift:51-142 | For a title that is trimmed, non-empty, free of '-' and line breaks and not "Focus Session"; distinct trimmed lowercase comma-free tag names; trimmed contents made of non-empty lines that start with no "### " or metadata prefix; and items on the start day: parsing the rendered document gives the title, the tags by name, the start and end, and the items sorted by timestamp with fresh ids. |
| SessionRoundTrip.ReidentifiedSorted | Sources/OrbitApp/Dependencies/SessionStore.swift:70 | The sorted items with fresh ids hold every item once, re-identified, in ascending timestamp order. |
| SessionRoundTrip.RoundTripRecovers | Sources/OrbitApp/Dependencies/SessionStore.swift:51-142 | Field by field: the title, the tag names, the start, the end, and every item's content, timestamp and type survive the round trip, the items as a permutation in timestamp order. |
| SessionRoundTrip.NoMetadataNotNew | Sources/OrbitApp/Dependencies/SessionStore.swift:129-131 | A header that the new-format parser accepts, followed by no metadata line, is not a new-format document. |
| SessionRoundTrip.LegacyDocumentParse | Sources/OrbitApp/Dependencies/SessionStore.swift:144-171 | A legacy document "# Session: Mode - start" without metadata reads as a session titled "Focus" with the mode's built-in tag, that start and no end. |
| SessionRoundTrip.BlankHeaderInvalid | Sources/OrbitApp/Dependencies/SessionStore.swift:89-91 | A document whose first line is empty is refused by both readings, with "Missing session header". |
| SessionRoundTrip.EmptyDocumentInvalid | Sources/OrbitApp/Dependencies/SessionStore.swift:89-91 | The empty document is refused for want of a header. |
| SessionRoundTrip.NotLegacyWithoutMetadata | Sources/OrbitApp/Dependencies/SessionStore.swift:144-156 | A new-format header without metadata whose title is no mode word fails both readings, with the legacy reader's message. |
| FocusRepository.StoredTextEnds | Sources/OrbitApp/Dependencies/FocusRepository.swift:422-428 | Stored text starts and ends with no line break. |
| FocusRepository.DefaultSessionNameTrimmed | Sources/OrbitApp/Dependencies/FocusRepository.swift:425 | The default session name is stored text. |
| FocusRepository.NormalizedSessionName | Sources/OrbitApp/Dependencies/FocusRepository.swift:422-428 | The name is the trimmed input when that is non-empty, otherwise the default name, which reads back as the fallback date; it is always non-empty and trimmed. |
| FocusRepository.NormalizedSessionNameIdempotent | Sources/OrbitApp/Dependencies/FocusRepository.swift:422-428 | Normalising a normalised session name again keeps it, whatever the fallback date. |
| FocusRepository.NormalizeTags | Sources/OrbitApp/Dependencies/FocusRepository.swift:430-442 | The seen-set loop returns `NormalizedTags`: the first occurrences of the non-empty normalised tags. |
| FocusRepository.NormalizedTagsProperties | Sources/OrbitApp/Dependencies/FocusRepository.swift:430-442 | The tags are distinct, non-empty and normalised, hold exactly the non-empty normalisations of the inputs, and keep the order of first occurrence. |
| FocusRepository.NormalizedTagsNormal | Sources/OrbitApp/Dependencies/FocusRepository.swift:430-442 | Normalised tags form a normal tag list. |
| FocusRepository.NormalTagListFixed | Sources/OrbitApp/Dependencies/FocusRepository.swift:430-442 | A normal tag list is left unchanged. |
| FocusRepository.NormalizedTagsIdempotent | Sources/OrbitApp/Dependencies/FocusRepository.swift:430-442 | Normalising tags twice is normalising them once. |
| FocusRepository.AppendLines | Sources/OrbitApp/Dependencies/FocusRepository.swift:474-481 | Regrouping a note's optional lines onto the lines before it. |
| FocusRepository.AppendAssoc | Sources/OrbitApp/Dependencies/FocusRepository.swift:474-481 | Appending note blocks regroups. |
| FocusRepository.AppendHeader | Sources/OrbitApp/Dependencies/FocusRepository.swift:460-472 | The appended header lines are the header sections. |
| FocusRepository.CreatedLeTotalPreorder | Sources/OrbitApp/Dependencies/FocusRepository.swift:474 | Comparing notes by creation time is a total preorder. |
| FocusRepository.SortedNotesOrdered | Sources/OrbitApp/Dependencies/FocusRepository.swift:474 | The notes are rendered as a permutation of the session's notes, in ascending creation time. |
| FocusRepository.RenderMarkdown | Sources/OrbitApp/Dependencies/FocusRepository.swift:459-484 | The appending method builds the header, then each sorted note's heading, its tags line only when it has tags, its text and a blank line; the join is trimmed of newlines and given one final "\n". |
| FocusRepository.NoteBlocksSnoc | Sources/OrbitApp/Dependencies/FocusRepository.swift:474-481 | One more note appends its block. |
| FocusRepository.ExportHeaderShape | Sources/OrbitApp/Dependencies/FocusRepository.swift:460-472 | The header has at least six lines, starts with "# Session: " and the name, and ends with "## Notes" and a blank line. |
| FocusRepository.NoteBlocksEnd | Sources/OrbitApp/Dependencies/FocusRepository.swift:479-480 | The note blocks end with the last note's text and a blank line. |
| FocusRepository.ExportDocumentShape | Sources/OrbitApp/Dependencies/FocusRepository.swift:459-484 | The document starts with "# Session: ", ends with exactly one line feed, and the character before it is no line break. |
| FocusRepository.ExportIsJoin | Sources/OrbitApp/Dependencies/FocusRepository.swift:483 | When every note's text is stored text, the trim removes only the final blank line, so the document is the join of its lines and "\n". |
| FocusRepository.FocusCategoryNormal | Sources/OrbitApp/Dependencies/FocusRepository.swift:444-457 | The focus category's name is its own normalisation. |
| FocusRepository.FocusUpsertOfValid | Sources/OrbitApp/Dependencies/FocusRepository.swift:444-457 | On a valid table the focus-category upsert changes nothing. |
| FocusRepository.NoteRecord | Sources/OrbitApp/Dependencies/FocusRepository.swift:386-406 | A note record carries the row's fields and its tags sorted by name, as a permutation. |
| FocusRepository.LexLeTotalPreorder | Sources/OrbitApp/Dependencies/FocusRepository.swift:393 | Ordering tags by name is a total preorder. |
| FocusRepository.EndedRow | Sources/OrbitApp/Dependencies/FocusRepository.swift:72-80 | The ended session keeps its id and start; it gets the resolved category, its end and reason, and its normalised name. |
| FocusRepository.SessionWriteValid | Sources/OrbitApp/Dependencies/FocusRepository.swift:75-81 | Writing a well-formed session row that names an existing category keeps the sessions and notes valid. |
| FocusRepository.CategoryWriteValid | Sources/OrbitApp/Dependencies/FocusRepository.swift:170-175 | Writing a category whose normalised name no other category owns keeps the categories and sessions valid. |
| FocusRepository.OwnersOnly | Sources/OrbitApp/Dependencies/FocusRepository.swift:163 | When no other row owns the normalised name, every row with that name is the one written. |
| FocusRepository.NoteWriteValid | Sources/OrbitApp/Dependencies/FocusRepository.swift:240-247 | Writing a stored note for an existing session keeps the notes valid. |
| FocusRepository.NotesOutside | Sources/OrbitApp/Dependencies/FocusRepository.swift:133 | The notes left after a session is deleted: exactly those of other sessions, unchanged. |
| FocusRepository.DeleteSessionValid | Sources/OrbitApp/Dependencies/FocusRepository.swift:129-135 | Deleting a session together with its notes keeps the tables valid. |
| FocusRepository.ReassignedAll | Sources/OrbitApp/Dependencies/FocusRepository.swift:217-220 | Every session of the deleted category moves to the focus category; the others stay. |
| FocusRepository.ReassignedValid | Sources/OrbitApp/Dependencies/FocusRepository.swift:217-222 | After the reassignment no session names the deleted category, and every session names a remaining category. |
| FocusRepository.DeleteCategoryValid | Sources/OrbitApp/Dependencies/FocusRepository.swift:209-224 | Deleting a category other than the focus category keeps the categories, sessions and notes valid. |
| FocusRepository.CategoryNamed | Sources/OrbitApp/Dependencies/FocusRepository.swift:168-181 | A new category has the trimmed display name and the normalised name, which is also the display name's normalisation. |
| FocusRepository.FocusStore.constructor | Sources/OrbitApp/Dependencies/FocusRepository.swift:444-457 | The store starts with only the focus category and no sessions or notes. |
| FocusRepository.FocusStore.StartSession | Sources/OrbitApp/Dependencies/FocusRepository.swift:29-52 | Adds an active session with the default name in the focus category; nothing else changes. |
| FocusRepository.FocusStore.EndSession | Sources/OrbitApp/Dependencies/FocusRepository.swift:65-85 | An unknown session changes nothing. A nil category means the focus category, and a category that does not exist is refused. Otherwise the session gets its normalised name, the category, its end and its reason. |
| FocusRepository.FocusStore.RenameSession | Sources/OrbitApp/Dependencies/FocusRepository.swift:115-128 | An existing session gets its normalised name; anything else changes nothing. |
| FocusRepository.FocusStore.DeleteSession | Sources/OrbitApp/Dependencies/FocusRepository.swift:129-135 | The session and its notes are removed, and nothing else. |
| FocusRepository.FocusStore.AddCategory | Sources/OrbitApp/Dependencies/FocusRepository.swift:155-183 | A blank normalised name, or one some category already owns, is refused. Otherwise exactly the new category is added and returned. |
| FocusRepository.FocusStore.RenameCategory | Sources/OrbitApp/Dependencies/FocusRepository.swift:184-208 | The focus category, a blank name, a name another category owns or an unknown id change nothing. Otherwise the category gets the trimmed and normalised names; the focus category always stays. |
| FocusRepository.FocusStore.DeleteCategory | Sources/OrbitApp/Dependencies/FocusRepository.swift:209-224 | The focus category is never deleted. Any other category is removed and its sessions move to the focus category; notes stay. |
| FocusRepository.FocusStore.CreateNote | Sources/OrbitApp/Dependencies/FocusRepository.swift:225-250 | Text that trims to empty, or an unknown session, is refused. Otherwise exactly one note is added with the trimmed text, the normalised tags and both stamps at now, and it is returned. |
| FocusRepository.FocusStore.UpdateNote | Sources/OrbitApp/Dependencies/FocusRepository.swift:251-273 | Text that trims to empty, or an unknown note, is refused. Otherwise the note gets the trimmed text, the priority, the normalised tags and the update stamp; its creation stamp stays. |
| FocusRepository.FocusStore.DeleteNote | Sources/OrbitApp/Dependencies/FocusRepository.swift:274-280 | The note is removed, and nothing else. |
| FocusRepository.StoredNotesExport | Sources/OrbitApp/Dependencies/FocusRepository.swift:386-484 | For notes read from valid rows, the exported document is exactly the join of its lines. |
| Sorting.Insert | Sources/OrbitApp/SessionFeature/SessionFeature.swift:43-46 | Inserting keeps the elements as a multiset, plus the new one. |
| Sorting.SortBy | Sources/OrbitApp/Dependencies/SessionStore.swift:70 | Sorting yields a permutation of its input. |
| Sorting.InsertSorted | Sources/OrbitApp/Dependencies/SessionStore.swift:70 | Inserting into a sorted sequence under a total preorder keeps it sorted. |
| Sorting.SortBySorted | Sources/OrbitApp/Dependencies/SessionStore.swift:70 | Sorting under a total preorder yields a sorted sequence. |
| Sorting.SortBySortedIdentity | Sources/OrbitApp/Dependencies/SessionStore.swift:70 | An input that is already sorted comes back unchanged. |
| Filtering.Filter | Sources/OrbitApp/SessionFeature/SessionFeature.swift:43-46 | The kept elements pass the test and come from the input, and every input element that passes is kept. |
| Filtering.FilterConcat | Sources/OrbitApp/SessionFeature/SessionFeature.swift:43-46 | Filtering distributes over concatenation, so order is kept. |
| Filtering.FilterAllPass | Sources/OrbitApp/SessionFeature/SessionFeature.swift:43-46 | When every element passes, filtering changes nothing. |
| Filtering.FilterIdempotent | Sources/OrbitApp/SessionFeature/SessionFeature.swift:43-46 | Filtering twice by one test is filtering once. |
| Filtering.FilterSorted | Sources/OrbitApp/SessionWindowFeature/SessionWindowFeature.swift:43-47 | Filtering a sorted sequence keeps it sorted. |
| Filtering.FilterSameTest | Sources/OrbitApp/SessionFeature/SessionFeature.swift:43-46 | Tests that agree on every element select the same elements. |
| Filtering.FilterPartition | Sources/OrbitApp/StartSessionFeature/StartSessionFeature.swift:89-93 | The kept and the dropped elements together are the input, as a multiset. |
| Dedup.FirstIndex | Sources/OrbitApp/Dependencies/FocusRepository.swift:436 | The first index of a key holds the key, and no earlier index does. |
| Dedup.FirstIndexLeast | Sources/OrbitApp/Dependencies/FocusRepository.swift:436 | The first index of a key is no later than any index holding it. |
| Dedup.FirstIndexBefore | Sources/OrbitApp/Dependencies/FocusRepository.swift:436 | A key in a prefix has its first index inside that prefix. |
| Dedup.FirstOccurrences | Sources/OrbitApp/Dependencies/FocusRepository.swift:430-442 | The kept keys are distinct, non-empty and from the input, and every non-empty input key is kept. |
| Dedup.FirstOccurrencesSnoc | Sources/OrbitApp/Dependencies/FocusRepository.swift:434-439 | One more key is appended exactly when it is non-empty and not yet seen. |
| Dedup.FirstOccurrencesOrder | Sources/OrbitApp/Dependencies/FocusRepository.swift:430-442 | The kept keys appear in the order of their first occurrence in the input. |
| Dedup.FirstIndexUnique | Sources/OrbitApp/Dependencies/FocusRepository.swift:436 | An index holding a key with no earlier occurrence is its first index. |
| Dedup.NormalizeAll | Sources/OrbitApp/Dependencies/FocusRepository.swift:435 | Each piece is replaced by its trimmed, lowercased form. |
| Dedup.NormalizeAllSnoc | Sources/OrbitApp/Dependencies/FocusRepository.swift:435 | Normalising one more piece appends its normal form. |
| Dedup.FirstOccurrencesNormalized | Sources/OrbitApp/Dependencies/FocusRepository.swift:430-442 | Every kept tag is normalised, and is the normal form of some input piece. |
| Dedup.FirstOccurrencesOfDistinct | Sources/OrbitApp/Dependencies/FocusRepository.swift:430-442 | Distinct non-empty keys are all kept, in order. |
| Effects.Submission | Sources/OrbitApp/FloatingPaletteFeature/FloatingPaletteFeature.swift:35-40 | A blank input submits nothing; otherwise the submission is the trimmed input, which is non-empty and trimmed. |
| ItemFilters.ItemFilter.SelectedType | Sources/OrbitApp/SessionFeature/SessionFeature.swift:17-25 | The filter selects an item type exactly when it is not "All". |
| ItemFilters.FilterTitles | Sources/OrbitApp/SessionFeature/SessionFeature.swift:27-35 | A type filter's title is its type's prefix, and "All" is titled "All". |
| ItemFilters.FilterFor | Sources/OrbitApp/SessionWindowFeature/SessionWindowFeature.swift:16-24 | Each item type has exactly one filter selecting it. |
| StartSessionFeature.Toggled | Sources/OrbitApp/StartSessionFeature/StartSessionFeature.swift:43-49 | The toggled id flips membership, and no other id changes. |
| StartSessionFeature.ToggledTwice | Sources/OrbitApp/StartSessionFeature/StartSessionFeature.swift:43-49 | Toggling twice restores the selection. |
| StartSessionFeature.SelectedTags | Sources/OrbitApp/StartSessionFeature/StartSessionFeature.swift:14-16 | The selected tags are exactly the catalog tags whose ids are selected. |
| StartSessionFeature.SelectedTagsConcat | Sources/OrbitApp/StartSessionFeature/StartSessionFeature.swift:14-16 | Selection keeps the catalog's order. |
| StartSessionFeature.SortCatalogShape | Sources/OrbitApp/StartSessionFeature/StartSessionFeature.swift:89-93 | The sorted catalog is a permutation of its input, with every built-in tag before every custom tag and each group ascending by name. |
| StartSessionFeature.SortedGroup | Sources/OrbitApp/StartSessionFeature/StartSessionFeature.swift:90-91 | Each group is sorted by name and passes its filter. |
| StartSessionFeature.GroupsInOrder | Sources/OrbitApp/StartSessionFeature/StartSessionFeature.swift:92 | Two sorted groups put one after the other keep built-ins first and each group in name order. |
| StartSessionFeature.FirstNamed | Sources/OrbitApp/StartSessionFeature/StartSessionFeature.swift:55 | The match is the first catalog tag with the normalised name, and is missing exactly when no tag has it. |
| StartSessionFeature.StartTitle | Sources/OrbitApp/StartSessionFeature/StartSessionFeature.swift:68-69 | The title is the trimmed title, or "Focus Session" when that is blank; it is non-empty and trimmed. |
| StartSessionFeature.BuiltInsNormalCatalog | Sources/OrbitApp/SessionFeature/SessionTag.swift:10-19 | The built-in catalog has normalised, distinct names. |
| StartSessionFeature.AppendedNormal | Sources/OrbitApp/StartSessionFeature/StartSessionFeature.swift:58-59 | Appending a normalised tag whose name is new keeps the catalog normal. |
| StartSessionFeature.PermutedNormal | Sources/OrbitApp/StartSessionFeature/StartSessionFeature.swift:60 | A permutation of a normal catalog is normal. |
| StartSessionFeature.AddedCatalogNormal | Sources/OrbitApp/StartSessionFeature/StartSessionFeature.swift:58-60 | The re-sorted catalog with a new, normalised tag is normal. |
| StartSessionFeature.AddCustomTagEffect | Sources/OrbitApp/StartSessionFeature/StartSessionFeature.swift:51-65 | A blank normalised input changes nothing. A name already in the catalog selects that tag. A new name adds exactly one custom tag with that name to the catalog and selects it. The input is cleared in both cases. |
| StartSessionFeature.AddCustomTagKeepsNormal | Sources/OrbitApp/StartSessionFeature/StartSessionFeature.swift:51-65 | Adding a custom tag keeps the catalog's names normalised and distinct. |
| StartSessionFeature.AddCustomTagAgain | Sources/OrbitApp/StartSessionFeature/StartSessionFeature.swift:51-65 | Adding the same name again leaves the catalog and the selection as they are. |
| StartSessionFeature.State.constructor | Sources/OrbitApp/StartSessionFeature/StartSessionFeature.swift:7-12 | The picker starts with the default title, the built-in catalog, no selection and no input. |
| StartSessionFeature.State.ToggleTag | Sources/OrbitApp/StartSessionFeature/StartSessionFeature.swift:43-49 | The selection becomes the toggled selection, and there is no effect. |
| StartSessionFeature.State.AddCustomTagTapped | Sources/OrbitApp/StartSessionFeature/StartSessionFeature.swift:51-65 | The new state is `AddCustomTag` of the old one, and a normal catalog stays normal. |
| StartSessionFeature.State.StartTapped | Sources/OrbitApp/StartSessionFeature/StartSessionFeature.swift:67-78 | Sends the confirmation with the normalised title, the selected tags and the catalog. |
| StartSessionFeature.State.CancelTapped | Sources/OrbitApp/StartSessionFeature/StartSessionFeature.swift:80-81 | Sends the cancellation. |
| StartSessionFeature.State.DelegateReceived | Sources/OrbitApp/StartSessionFeature/StartSessionFeature.swift:83-84 | Delegate actions do nothing. |
| SessionFeature.FilteredItems | Sources/OrbitApp/SessionFeature/SessionFeature.swift:43-46 | "All" shows every item; a type filter shows exactly the items of that type. |
| SessionFeature.FilteredItemsConcat | Sources/OrbitApp/SessionFeature/SessionFeature.swift:43-46 | The filtered items keep the session's order. |
| SessionFeature.CarryForwardItems | Sources/OrbitApp/SessionFeature/SessionFeature.swift:72-76 | The carried items are exactly the session's items that are marked to carry and not completed. |
| SessionFeature.CarryForwardOfDisjoint | Sources/OrbitApp/SessionFeature/SessionFeature.swift:69-75 | When no marked item is completed, the excluded-completed test is the plain carry test. |
| SessionFeature.State.constructor | Sources/OrbitApp/SessionFeature/SessionFeature.swift:38-41 | The view starts with "All" and nothing completed or carried. |
| SessionFeature.State.BindingChanged | Sources/OrbitApp/SessionFeature/SessionFeature.swift:68-70 | The bound field changes, and the carried ids lose every completed id. |
| SessionFeature.State.CarryForwardTapped | Sources/OrbitApp/SessionFeature/SessionFeature.swift:72-76 | Sends the carried items. |
| SessionFeature.State.ExportTapped | Sources/OrbitApp/SessionFeature/SessionFeature.swift:78-79 | Sends the session for export. |
| SessionFeature.State.DismissTapped | Sources/OrbitApp/SessionFeature/SessionFeature.swift:81-82 | Sends the dismissal. |
| SessionFeature.State.DelegateReceived | Sources/OrbitApp/SessionFeature/SessionFeature.swift:84-85 | Delegate actions do nothing. |
| SessionWindowFeature.NewerOrSameTotalPreorder | Sources/OrbitApp/SessionWindowFeature/SessionWindowFeature.swift:44 | Newest-first by timestamp is a total preorder. |
| SessionWindowFeature.FilteredItemsOrdered | Sources/OrbitApp/SessionWindowFeature/SessionWindowFeature.swift:43-47 | The shown items are newest first, and are exactly the items of the selected type; for "All" they are a permutation of all items. |
| SessionWindowFeature.TagIds | Sources/OrbitApp/SessionWindowFeature/SessionWindowFeature.swift:50 | The ids of the session's tags. |
| SessionWindowFeature.SuggestedTags | Sources/OrbitApp/SessionWindowFeature/SessionWindowFeature.swift:49-52 | The suggestions are exactly the catalog tags whose id is on none of the session's tags. |
| SessionWindowFeature.SuggestedTagsConcat | Sources/OrbitApp/SessionWindowFeature/SessionWindowFeature.swift:49-52 | The suggestions keep the catalog's order. |
| SessionWindowFeature.State.constructor | Sources/OrbitApp/SessionWindowFeature/SessionWindowFeature.swift:37-41 | The window starts with empty inputs and "All". |
| SessionWindowFeature.State.SubmitTapped | Sources/OrbitApp/SessionWindowFeature/SessionWindowFeature.swift:81-85 | A blank input does nothing; otherwise the input is cleared and the trimmed text is sent for capture. |
| SessionWindowFeature.State.CloseTapped | Sources/OrbitApp/SessionWindowFeature/SessionWindowFeature.swift:87-88 | Sends the close. |
| SessionWindowFeature.State.RemoveTagTapped | Sources/OrbitApp/SessionWindowFeature/SessionWindowFeature.swift:90-91 | Sends the removal of that tag. |
| SessionWindowFeature.State.AddSuggestedTagTapped | Sources/OrbitApp/SessionWindowFeature/SessionWindowFeature.swift:93-94 | Sends the addition of that tag. |
| SessionWindowFeature.State.AddCustomTagTapped | Sources/OrbitApp/SessionWindowFeature/SessionWindowFeature.swift:96-100 | A blank tag input does nothing; otherwise it is cleared and the trimmed tag is sent. |
| SessionWindowFeature.State.DelegateReceived | Sources/OrbitApp/SessionWindowFeature/SessionWindowFeature.swift:102-103 | Delegate actions do nothing. |
| FloatingPaletteFeature.State.constructor | Sources/OrbitApp/FloatingPaletteFeature/FloatingPaletteFeature.swift:6-11 | The palette starts empty and unpinned, in the given mode. |
| FloatingPaletteFeature.State.SubmitTapped | Sources/OrbitApp/FloatingPaletteFeature/FloatingPaletteFeature.swift:35-40 | A blank input does nothing; otherwise the input is cleared and the trimmed text is sent for capture. |
| FloatingPaletteFeature.State.CloseTapped | Sources/OrbitApp/FloatingPaletteFeature/FloatingPaletteFeature.swift:42-43 | Sends the close. |
| FloatingPaletteFeature.State.PinToEdgeTapped | Sources/OrbitApp/FloatingPaletteFeature/FloatingPaletteFeature.swift:45-47 | Pinning flips, and the new pin state is sent. |
| FloatingPaletteFeature.State.DelegateReceived | Sources/OrbitApp/FloatingPaletteFeature/FloatingPaletteFeature.swift:49-50 | Delegate actions do nothing. |
| FocusModeFeature.State.constructor | Sources/OrbitApp/FocusModeFeature/FocusModeFeature.swift:7 | The picker starts on coding. |
| FocusModeFeature.State.SelectMode | Sources/OrbitApp/FocusModeFeature/FocusModeFeature.swift:22-24 | The mode becomes the chosen one, and the change is sent. |
| FocusModeFeature.State.DelegateReceived | Sources/OrbitApp/FocusModeFeature/FocusModeFeature.swift:26-27 | Delegate actions do nothing. |
| AppFeature.WrappingIncrement | Sources/OrbitApp/AppFeature.swift:259 | `&+= 1` on a 64-bit Int: one more, except that the largest value wraps to the smallest. |
| AppFeature.AllWindowsClosed | Sources/OrbitApp/AppFeature.swift:167 | Removing the three destinations leaves no window open. |
| AppFeature.FindDraft | Sources/OrbitApp/AppFeature.swift:326 | The position found is that of the first draft with the id, and none means no draft has it. |
| AppFeature.HasCategory | Sources/OrbitApp/AppFeature.swift:585 | True exactly when some category has the id. |
| AppFeature.EditingDraft | Sources/OrbitApp/AppFeature.swift:326-331 | The capture form for a note carries its text and priority, edits that note, and shows its tags joined by ", ". |
| AppFeature.Spaced | Sources/OrbitApp/AppFeature.swift:329 | Every tag after a comma is read with its leading space. |
| AppFeature.JoinSpaced | Sources/OrbitApp/AppFeature.swift:329 | Joining the spaced tags with ',' is a space followed by the tags joined with ", ". |
| AppFeature.NonEmptyPiecesKeepsAll | Sources/OrbitApp/Shared/FocusDomain.swift:87-99 | Non-empty pieces all survive the split's empty-piece filter. |
| AppFeature.SpacedTagNormal | Sources/OrbitApp/Shared/FocusDomain.swift:79-85 | A leading space disappears when a normalised tag is normalised again. |
| AppFeature.JoinedPieces | Sources/OrbitApp/AppFeature.swift:329 | The pieces of a ", "-joined tag list: the first tag, then each later tag with its space. |
| AppFeature.CommaSpace | Sources/OrbitApp/AppFeature.swift:329 | "," followed by a space is ", ". |
| AppFeature.JoinAsPieces | Sources/OrbitApp/AppFeature.swift:329 | Joining those pieces with ',' is joining the tags with ", ". |
| AppFeature.PiecesCommaFree | Sources/OrbitApp/AppFeature.swift:329 | A comma-free tag gives comma-free pieces. |
| AppFeature.EditedTagsRoundTrip | Sources/OrbitApp/AppFeature.swift:299-333 | Tags shown in the edit form, joined by ", ", are read back by the tag parser as exactly those tags, when they are distinct, normalised, non-empty and comma-free. |
| AppFeature.SplitJoinedTags | Sources/OrbitApp/AppFeature.swift:329 | Splitting the joined tags at commas gives the pieces. |
| AppFeature.NormalizeJoinedPieces | Sources/OrbitApp/AppFeature.swift:329 | Normalising the pieces gives back the tags. |
| AppFeature.JoinedPiecesFacts | Sources/OrbitApp/AppFeature.swift:329 | Each piece is non-empty, comma-free and normalises to its tag. |
| AppFeature.CreatedNotEarlierTotalPreorder | Sources/OrbitApp/AppFeature.swift:611 | Newest-first by creation time is a total preorder. |
| AppFeature.DraftsOf | Sources/OrbitApp/AppFeature.swift:609-619 | One draft per note, in order, carrying the note's id, text, tags, priority and creation time. |
| AppFeature.NoteDraftsOrdered | Sources/OrbitApp/AppFeature.swift:603-622 | The drafts of an active session are newest first, one per note, and each draft comes from a note. |
| AppFeature.CaseInsensitiveNameLeTotalPreorder | Sources/OrbitApp/AppFeature.swift:580-581 | Ordering categories by lower-cased name is a total preorder. |
| AppFeature.SortedCategoriesOrdered | Sources/OrbitApp/AppFeature.swift:580-581 | The loaded categories are held as a permutation sorted by lower-cased name, offering exactly the same category ids. |
| AppFeature.HasCategoryPermuted | Sources/OrbitApp/AppFeature.swift:580-585 | Whether a category exists does not depend on the order of the list. |
| AppFeature.DraftWithCategories | Sources/OrbitApp/AppFeature.swift:583-589 | An open prompt gets the new categories, and falls back to the focus category when its selected one is gone. |
| AppFeature.DraftForSession | Sources/OrbitApp/AppFeature.swift:554-561 | An open prompt takes the session's name, and the session's category when that is listed. |
| AppFeature.SessionIds | Sources/OrbitApp/AppFeature.swift:521-522 | The ids of the sessions, in order. |
| AppFeature.EndedSessionIds | Sources/OrbitApp/AppFeature.swift:521-522 | The ids to export are exactly those of the ended sessions. |
| AppFeature.EndedSessionIdsMembers | Sources/OrbitApp/AppFeature.swift:521-522 | Filtering by "ended" and then taking ids gives exactly the ended sessions' ids. |
| AppFeature.ExportsInactiveSessions | Sources/OrbitApp/Shared/FocusDomain.swift:66-68 | The sessions "export all" sends are exactly those that are no longer active, a session being active until it has an end. |
| AppFeature.ExportedMessage | Sources/OrbitApp/AppFeature.swift:542-544 | The message is "Exported ", a decimal numeral whose value is the count, and " session markdown file(s).". |
| AppFeature.State.constructor | Sources/OrbitApp/AppFeature.swift:51-64 | The app starts with nothing loaded, the default hotkeys, empty drafts and no window; the invariant holds. |
| AppFeature.State.BindingChanged | Sources/OrbitApp/AppFeature.swift:131-132 | Binding changes have no effect. |
| AppFeature.State.OnLaunch | Sources/OrbitApp/AppFeature.swift:134-154 | The first launch installs the loaded hotkeys in the state and settings, then registers them and loads the active session, the categories and the settings. Later launches do nothing. |
| AppFeature.State.AppWillTerminate | Sources/OrbitApp/AppFeature.swift:156-172 | With an active session: it is ended with reason "app closed" and no name or category, all windows and drafts are cleared, and both long-running effects are cancelled. Without one, nothing happens. |
| AppFeature.State.InactivityTick | Sources/OrbitApp/AppFeature.swift:174-180 | An active session idle for at least eight hours is ended automatically; otherwise nothing happens. |
| AppFeature.State.HotkeyTriggered | Sources/OrbitApp/AppFeature.swift:182-188 | Each hotkey sends its action. |
| AppFeature.State.RegisterHotkeysAction | Sources/OrbitApp/AppFeature.swift:190-209 | Starts listening for the shortcuts, cancelling the previous registration. |
| AppFeature.State.StartSessionTappedAction | Sources/OrbitApp/AppFeature.swift:211-230 | With an active session it only opens that session. Otherwise it opens the session window and starts a session. |
| AppFeature.State.CaptureTappedAction | Sources/OrbitApp/AppFeature.swift:232-254 | With an active session it opens the capture window. Otherwise it opens both windows and starts a session to capture into. |
| AppFeature.State.OpenSessionTappedAction | Sources/OrbitApp/AppFeature.swift:256-260 | With an active session it opens the session window and bumps the focus request, wrapping; otherwise nothing changes. |
| AppFeature.State.PromptFor | Sources/OrbitApp/AppFeature.swift:264-269 | The prompt carries the active session's name and category and the loaded categories. |
| AppFeature.State.EndSessionTapped | Sources/OrbitApp/AppFeature.swift:262-270 | With an active session the end-session prompt opens for it; the invariant holds. |
| AppFeature.State.SessionWindowEndSessionTapped | Sources/OrbitApp/AppFeature.swift:272-283 | As above, and the capture and session windows give way to the end-session window. |
| AppFeature.State.SessionWindowClosed | Sources/OrbitApp/AppFeature.swift:285-287 | Only the session window closes. |
| AppFeature.State.CaptureWindowClosed | Sources/OrbitApp/AppFeature.swift:289-292 | The capture window closes and the form is cleared. |
| AppFeature.State.EndSessionWindowClosed | Sources/OrbitApp/AppFeature.swift:294-297 | The end-session window closes and the prompt is dropped. |
| AppFeature.State.CaptureSubmitTapped | Sources/OrbitApp/AppFeature.swift:299-318 | With an active session the form is cleared, the capture window closes, and the note is saved with the form's text, priority, edited note and parsed tags. Otherwise nothing happens. |
| AppFeature.State.SessionAddNoteTapped | Sources/OrbitApp/AppFeature.swift:320-323 | Opens an empty capture form. |
| AppFeature.State.SessionNoteEditTapped | Sources/OrbitApp/AppFeature.swift:325-333 | A known note opens the form pre-filled from its draft; an unknown one changes nothing. |
| AppFeature.State.SessionRenameTapped | Sources/OrbitApp/AppFeature.swift:335-343 | Renames the active session, if any. |
| AppFeature.State.SessionCategoryChangedTapped | Sources/OrbitApp/AppFeature.swift:345-353 | Changes the active session's category, if any. |
| AppFeature.State.SessionNoteSaveTapped | Sources/OrbitApp/AppFeature.swift:355-363 | Saves the note, when a session is active. |
| AppFeature.State.SessionNoteTaskToggleTapped | Sources/OrbitApp/AppFeature.swift:365-379 | With an active session and a known note, that line's task is toggled in the draft and saved. A toggle that changes nothing does nothing. |
| AppFeature.State.SessionNoteDeleteTapped | Sources/OrbitApp/AppFeature.swift:381-389 | Deletes the note, when a session is active. |
| AppFeature.State.EndSessionConfirmTapped | Sources/OrbitApp/AppFeature.swift:391-410 | With an active session: the prompt is dropped, every window closes, and the session is ended by hand with the given name and category. |
| AppFeature.State.EndSessionCancelTapped | Sources/OrbitApp/AppFeature.swift:412-415 | The prompt is dropped and its window closes. |
| AppFeature.State.AutoEndSessionAction | Sources/OrbitApp/AppFeature.swift:417-435 | With an active session: the prompt is dropped, every window closes, and the session ends for inactivity. |
| AppFeature.State.SettingsRefreshTappedAction | Sources/OrbitApp/AppFeature.swift:437-442 | Loads the settings data. |
| AppFeature.State.SettingsSaveHotkeysTapped | Sources/OrbitApp/AppFeature.swift:444-467 | Each blank shortcut falls back to its default; the trimmed shortcuts become the hotkeys, the old ones are released, the new ones saved and registered, and the message says so. |
| AppFeature.State.SettingsResetHotkeysTapped | Sources/OrbitApp/AppFeature.swift:469-482 | The defaults become the hotkeys and the settings shortcuts; the old ones are released, and the defaults saved and registered. |
| AppFeature.State.SettingsAddCategoryTapped | Sources/OrbitApp/AppFeature.swift:484-488 | Adds the category. |
| AppFeature.State.SettingsRenameCategoryTapped | Sources/OrbitApp/AppFeature.swift:490-494 | Renames the category. |
| AppFeature.State.SettingsDeleteCategoryTapped | Sources/OrbitApp/AppFeature.swift:496-502 | Deletes the category. |
| AppFeature.State.SettingsRenameSessionTapped | Sources/OrbitApp/AppFeature.swift:504-510 | Renames the session. |
| AppFeature.State.SettingsDeleteSessionTapped | Sources/OrbitApp/AppFeature.swift:512-518 | Deletes the session. |
| AppFeature.State.SettingsExportAllTapped | Sources/OrbitApp/AppFeature.swift:520-533 | With no ended session, the message says there is nothing to export; otherwise the ended sessions are exported. |
| AppFeature.State.SettingsExportSessionTapped | Sources/OrbitApp/AppFeature.swift:535-540 | Exports the one session. |
| AppFeature.State.SettingsExportCompleted | Sources/OrbitApp/AppFeature.swift:542-544 | The message reports the count. |
| AppFeature.State.OperationFailed | Sources/OrbitApp/AppFeature.swift:546-548 | The message is the failure's. |
| AppFeature.State.SyncNoteDrafts | Sources/OrbitApp/AppFeature.swift:603-622 | The drafts become those of the active session, newest first, or none. |
| AppFeature.State.LoadActiveSessionResponse | Sources/OrbitApp/AppFeature.swift:550-577 | The session and its drafts are installed. With a session, an open prompt follows it and the inactivity timer starts. Without one, the prompt is dropped, every window closes and the timer stops; the invariant holds. |
| AppFeature.State.LoadCategoriesResponse | Sources/OrbitApp/AppFeature.swift:579-591 | The categories are sorted into the state and the settings; an open prompt takes them and keeps its selection only while it is listed. |
| AppFeature.State.SettingsDataResponse | Sources/OrbitApp/AppFeature.swift:593-597 | The settings take the sessions and categories, and so does the state's category list. |
| Patterns.Run | Sources/OrbitApp/SessionFeature/SessionView.swift:631-641 | A greedy run of a character class stops at the first character outside it, or at the end. |
| Patterns.RunOf | Sources/OrbitApp/SessionFeature/SessionView.swift:631-641 | A run over `a + b` covers exactly `a` when `a` is in the class and `b` stops it. |
| Patterns.RunCovers | Sources/OrbitApp/SessionFeature/SessionView.swift:631-641 | A run over `a + b` covers at least `a` when `a` is in the class. |
| Patterns.LineTail | Sources/OrbitApp/SessionFeature/SessionView.swift:632 | `(.*)$` captures a prefix free of line terminators and followed only by an end of input. |
| Patterns.LineTailOf | Sources/OrbitApp/SessionFeature/SessionView.swift:632 | A text followed by an end of input is captured whole. |
| Patterns.SpacedTail | Sources/OrbitApp/SessionFeature/SessionView.swift:632 | `\s+(.*)$` (or `\s*`) captures a terminator-free text that does not start with white space. |
| Patterns.EndOfInputAfterSpaces | Sources/OrbitApp/SessionFeature/SessionView.swift:632 | White space followed by an end of input captures the empty text. |
| Patterns.SpacedTailOf | Sources/OrbitApp/SessionFeature/SessionView.swift:632 | White space, then a tail text, then an end of input captures exactly the text. |
| Patterns.SpacedTailParts | Sources/OrbitApp/SessionFeature/SessionView.swift:632 | A capture splits its input into white space, the text and an end of input. |
| Patterns.IndentOf | Sources/OrbitApp/SessionFeature/SessionView.swift:632 | `[ \t]*` takes exactly the indentation of a line. |
| Patterns.MatchTask | Sources/OrbitApp/Shared/MarkdownEditingCore.swift:319-321 | A task-line match has a space-or-tab indentation, a box marker among ' ', 'x', 'X', and a tail text. |
| Patterns.MatchTaskOf | Sources/OrbitApp/Shared/MarkdownEditingCore.swift:319-321 | Every line built from an indentation, "- [", a box marker, "]", white space, a text and an end of input matches with exactly those groups. |
| Patterns.MatchTaskParts | Sources/OrbitApp/Shared/MarkdownEditingCore.swift:319-321 | Every match is such a line. |
| Patterns.MatchUnordered | Sources/OrbitApp/Shared/MarkdownSourceTextView.swift:313-315 | An unordered match has a space-or-tab indentation, a bullet among '-', '*', '+', and a tail text. |
| Patterns.MatchUnorderedOf | Sources/OrbitApp/Shared/MarkdownSourceTextView.swift:313-315 | Every line built from an indentation, a bullet, white space, a text and an end of input matches with exactly those groups. |
| Patterns.MatchUnorderedParts | Sources/OrbitApp/Shared/MarkdownSourceTextView.swift:313-315 | Every match is such a line, with at least one white space after the bullet. |
| Patterns.MatchOrdered | Sources/OrbitApp/Shared/MarkdownSourceTextView.swift:317-319 | An ordered match has an indentation, a non-empty digit run, a separator '.' or ')' and a tail text. |
| Patterns.MatchOrderedOf | Sources/OrbitApp/Shared/MarkdownSourceTextView.swift:317-319 | Every line built from those groups, white space and an end of input matches with exactly those groups. |
| Patterns.MatchOrderedParts | Sources/OrbitApp/Shared/MarkdownSourceTextView.swift:317-319 | Every match is such a line. |
| Patterns.OrderedLineStart | Sources/OrbitApp/Shared/MarkdownSourceTextView.swift:317-319 | After its indentation an ordered line starts with its number's first digit. |
| Patterns.NotBulleted | Sources/OrbitApp/Shared/MarkdownSourceTextView.swift:313-323 | A line whose first character after the indentation is no bullet matches neither a task-line nor an unordered pattern. |
| Patterns.NotHeading | Sources/OrbitApp/SessionFeature/SessionView.swift:631-633 | A line whose first character after the indentation is not '#' is no heading. |
| Patterns.MatchHeading | Sources/OrbitApp/SessionFeature/SessionView.swift:631-633 | A heading match has an indentation, one to six '#' and a tail text. |
| Patterns.MatchHeadingOf | Sources/OrbitApp/SessionFeature/SessionView.swift:631-633 | Every line built from an indentation, one to six '#', white space, a tail text and an end of input matches with exactly those groups. |
| Patterns.MatchHeadingParts | Sources/OrbitApp/SessionFeature/SessionView.swift:631-633 | Every match is such a line. |
| Patterns.BoxTail | Sources/OrbitApp/Shared/MarkdownSourceTextView.swift:322 | What follows a box `[ ]`, `[x]` or `[X]` and white space is a tail text. |
| Patterns.BoxTailOf | Sources/OrbitApp/Shared/MarkdownSourceTextView.swift:322 | A box, white space, a text and an end of input capture the text. |
| Patterns.BoxTailParts | Sources/OrbitApp/Shared/MarkdownSourceTextView.swift:322 | Every capture splits its input into the box, white space, the text and an end of input. |
| Patterns.MatchBulletTask | Sources/OrbitApp/Shared/MarkdownSourceTextView.swift:321-323 | An editor task match has an indentation, a bullet and a tail text. |
| Patterns.MatchBulletTaskOf | Sources/OrbitApp/Shared/MarkdownSourceTextView.swift:321-323 | Every line built from an indentation, a bullet, white space, a box, white space, a text and an end of input matches with those groups. |
| Patterns.MatchBulletTaskParts | Sources/OrbitApp/Shared/MarkdownSourceTextView.swift:321-323 | Every match is such a line. |
| Patterns.HeadingMarkLength | Sources/OrbitApp/Shared/MarkdownEditingCore.swift:279 | A heading mark `^#{1,6}\s+` lies within the text. |
| Patterns.NumberMarkLength | Sources/OrbitApp/Shared/MarkdownEditingCore.swift:282 | A number mark `^\d+\.\s+` lies within the text. |
| Patterns.TaskBoxLength | Sources/OrbitApp/Shared/MarkdownEditingCore.swift:285 | A task mark `^- \[[ xX]\]\s*` lies within the text. |
| Patterns.HeadingMarkLengthOf | Sources/OrbitApp/Shared/MarkdownEditingCore.swift:279 | One to six '#' and white space before a text not starting with white space form a mark of exactly that length. |
| Patterns.HeadingMarkLengthNone | Sources/OrbitApp/Shared/MarkdownEditingCore.swift:279 | A text not starting with '#' has no heading mark. |
| Patterns.NumberMarkLengthOf | Sources/OrbitApp/Shared/MarkdownEditingCore.swift:282 | Digits and ". " before a text not starting with white space form a mark two longer than the digits. |
| Patterns.NumberMarkAt | Sources/OrbitApp/Shared/MarkdownEditingCore.swift:282 | The number mark, stated for the digit run and what follows it. |
| Patterns.NumberMarkLengthNone | Sources/OrbitApp/Shared/MarkdownEditingCore.swift:282 | A text not starting with a Unicode decimal digit has no number mark. |
| DateTime.BeforeIrreflexive | Sources/OrbitApp/Dependencies/SessionStore.swift:70 | No date is before itself. |
| DateTime.Pad2 | Sources/OrbitApp/Dependencies/SessionStore.swift:309 | Two-digit fields are two ASCII digits. |
| DateTime.Pad4 | Sources/OrbitApp/Dependencies/SessionStore.swift:309 | The year field is four ASCII digits. |
| DateTime.FormatDay | Sources/OrbitApp/Dependencies/SessionStore.swift:317 | "yyyy-MM-dd" is ten characters. |
| DateTime.FormatTime | Sources/OrbitApp/Dependencies/SessionStore.swift:325 | "HH:mm" is five characters. |
| DateTime.FormatMinute | Sources/OrbitApp/Dependencies/SessionStore.swift:309 | "yyyy-MM-dd HH:mm" is sixteen characters. |
| DateTime.FormatFileStamp | Sources/OrbitApp/SessionFeature/Session.swift:19 | "yyyy-MM-dd-HHmm" is fifteen characters. |
| DateTime.FormatMinuteOfDigits | Sources/OrbitApp/Dependencies/SessionStore.swift:305-311 | A string of that shape is the format of the date its digits spell. |
| DateTime.Pad2OfDigits | Sources/OrbitApp/Dependencies/SessionStore.swift:305-311 | Padding the value of two digits gives them back. |
| DateTime.Digits2OfPad2 | Sources/OrbitApp/Dependencies/SessionStore.swift:305-311 | Reading a padded field gives its value back. |
| DateTime.DigitsFree | Sources/OrbitApp/Dependencies/SessionStore.swift:305-311 | Digits hold no white space, line break or '-'. |
| DateTime.FormatMinuteShape | Sources/OrbitApp/Dependencies/SessionStore.swift:305-311 | A formatted minute has no line break and starts and ends with no white space. |
| Text.TrimStart | Sources/OrbitApp/Dependencies/SessionStore.swift:76 | Trimming the start leaves no trimmed character first. |
| Text.TrimEnd | Sources/OrbitApp/Dependencies/SessionStore.swift:76 | Trimming the end leaves no trimmed character last. |
| Text.Trim | Sources/OrbitApp/Dependencies/SessionStore.swift:76 | `trimmingCharacters(in:)` leaves no trimmed character at either end. |
| Text.TrimEmptyIff | Sources/OrbitApp/Dependencies/FocusRepository.swift:229-230 | A text trims to empty exactly when all of it is trimmed characters. |
| Text.TrimIdempotent | Sources/OrbitApp/Dependencies/FocusRepository.swift:229 | Trimming twice is trimming once. |
| Text.ToLower | Sources/OrbitApp/Shared/FocusDomain.swift:79-85 | `lowercased()` maps each character by itself. |
| Text.ToUpper | Sources/OrbitApp/Shared/HotkeyHint.swift:28-51 | `uppercased()` maps each character by itself. |
| Text.ToLowerIdempotent | Sources/OrbitApp/Shared/FocusDomain.swift:79-85 | Lower-casing twice is lower-casing once. |
| Text.TrimLowerIdempotent | Sources/OrbitApp/Shared/FocusDomain.swift:79-85 | Trimming and lower-casing twice is doing it once. |
| Text.Split | Sources/OrbitApp/Dependencies/SessionStore.swift:88 | `components(separatedBy:)` yields at least one piece. |
| Text.NonEmptyPieces | Sources/OrbitApp/Shared/FocusDomain.swift:91 | Dropping empty pieces leaves only non-empty ones. |
| Text.DecimalString | Sources/OrbitApp/Shared/MarkdownSourceTextView.swift:275 | A number's decimal text is a non-empty run of ASCII digits. |
| Text.ParseInt | Sources/OrbitApp/Shared/MarkdownSourceTextView.swift:258 | `Int(text)` succeeds exactly on a non-empty ASCII digit run whose value fits in a 64-bit `Int`, and gives that value; other decimal digits make it fail. |

## Findings

| source | as written | input that shows it | evidently intended | confidence | as-written member | corrected member |
|---|---|---|---|---|---|---|
| Sources/OrbitApp/Shared/MarkdownSourceTextView.swift:275 | `continuationMarker` computes `max(number + 1, 1)` on a 64-bit `Int`; `parseListContinuation` accepts any digit run that fits in an `Int` (line 258), so the addition traps on `Int.max` | Return pressed at the end of the line "9223372036854775807. x" | The list continues (or falls back to 1) instead of the app trapping | not executed | ListContinuation.NextNumberAsWritten, ListContinuation.LargestNumberTraps | ListContinuation.MarkerContinuesList (its marker is `ContinuationMarker`, which uses the unbounded next number) |

## Left out

- Characters are UTF-16 code units and text is assumed to be in the Basic Multilingual Plane; grapheme clusters, which `leadingIndent` counts, are taken to be single units, and CRLF as one terminator only where `NSString` line ranges treat it so.
- Case mapping (`lowercased`, `uppercased`, `localizedCaseInsensitiveCompare`) is ASCII only; Unicode case mapping and locale rules are not modelled.
- AppFeature.CaseInsensitiveNameLe: orders by ASCII-lower-cased name, an approximation of `localizedCaseInsensitiveCompare`.
- `DateFormatter` is modelled by a calendar record with strict "yyyy-MM-dd HH:mm", "yyyy-MM-dd", "HH:mm" and "yyyy-MM-dd-HHmm" formatters and parsers; locale, time zone, lenient parsing and the clock are left out, and `now` is a parameter.
- UUIDs are parameters or fresh-id supplies (`nat -> Uuid`) rather than calls to `UUID()`.
- Swift's `sorted(by:)` and SQL `ORDER BY` are modelled by one stable insertion sort; Swift's sort is not guaranteed stable, so only the order and the permutation, not the placement of ties, are claimed for the source.
- The SQLite tables are in-memory maps in `FocusRepository.FocusStore`; SQL constraints appear as the store's invariant, and a failed foreign key as the `UnknownCategory` outcome. `loadActiveSession`, `listSessions`, `listCategories`, `buildSessionRecord`'s joins and `exportSessionsMarkdown`'s file writes are storage queries and I/O, not modelled beyond `NoteRecord` and `RenderMarkdown`.
- FocusRepository.FocusStore.AddCategory: takes the new id as a parameter and requires it to be unused, where the source draws it from `uuid()`; likewise `StartSession` and `CreateNote`.
- The note heading's bullet is the three characters that FocusRepository.swift:475 holds (U+00E2 U+20AC U+00A2), exactly as written there.
- Regular expressions are hand-written greedy matchers for the fixed patterns; the NSRegularExpression engine itself is not modelled. Their `\d` is Unicode category Nd restricted to the Basic Multilingual Plane (the 37 ten-digit blocks of Unicode 15 there); digits outside it are surrogate pairs under the UTF-16 model above and are not matched.
- Hotkeys.HotkeyCenter.Store: `nextID` is an unbounded `nat`; the source's `UInt32` `nextID += 1` traps after 2^32 - 1 registrations, which the model does not capture.
- Carbon hotkey registration is the boolean `osAccepts`; the event handler, the `NSLock` and the closures it stores are left out (the registry keeps the action value), and the event dispatch is represented by `ActionFor` only.
- The `.run` effect bodies (repository calls, `loadActiveSession` round trips, `Task.sleep` loops, `AsyncStream` hotkey listening, cancellation) are opaque `Job` values; what they later send back is not modelled.
- The inactivity client's idle duration is a `real` parameter.
- Binding actions change fields through SwiftUI bindings; only the reducers' own reaction to them is modelled, and the field updates appear as method parameters or are left out where the reducer returns `.none`.
- IdentifiedArray uniqueness of note drafts is not checked; drafts are a sequence searched by first match.
- The settings screen's export writes files and reports `urls.count`; the count is a parameter of `SettingsExportCompleted`.
- AppFeature.EditedTagsRoundTrip: requires comma-free tags, because a tag containing ',' is split by the tag parser and the round trip does not hold for it.
- Session.swift declares a `mode` that the codec does not build; the codec and its round trip use the types the codec itself constructs (title, tags, start, end, items).
- `SessionView` is declared in two places; only the line classifier and `lineView` precedence of the rendered note view are modelled, not either view body.
- MarkdownAttributedRenderer wraps Foundation's markdown parser and is not part of this model.
- Window and panel controllers, SwiftUI views, `SessionFileStore` and `TagFileStore` I/O, JSON and UserDefaults are UI, storage or OS glue, not part of this model.
