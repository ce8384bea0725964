/**
 * Hand-written matchers for the anchored regular expressions that the editors
 * and the note renderer use (ICU syntax, no options). Every quantifier in these
 * patterns is greedy, and none ever needs to back off: a shorter run would leave
 * in front of the next pattern element a character that element cannot match.
 * So each matcher takes maximal runs and then checks what follows.
 */
module Patterns {
  import opened Text
  import opened Wrappers

  /** The character classes the patterns repeat. */
  datatype CharClass =
    | IndentChars     // [ \t]
    | SpaceChars      // \s
    | DigitChars      // \d
    | HashChars       // #
    | NonTerminators  // .

  predicate InClass(c: char, k: CharClass) {
    match k
    case IndentChars => c == ' ' || c == '\t'
    case SpaceChars => IsRegexSpace(c)
    case DigitChars => IsRegexDigit(c)
    case HashChars => c == '#'
    case NonTerminators => !IsRegexLineTerminator(c)
  }

  predicate AllInClass(s: String, k: CharClass) {
    forall i :: 0 <= i < |s| ==> InClass(s[i], k)
  }

  /** `s` is empty or starts outside class `k`: a greedy run of `k` stops before it. */
  predicate StopsRun(s: String, k: CharClass) {
    s == [] || !InClass(s[0], k)
  }

  /** The length of the longest prefix of `s` in class `k`: what a greedy `k*` consumes. */
  function Run(s: String, k: CharClass): (n: nat)
    ensures n <= |s|
    ensures AllInClass(s[..n], k) && StopsRun(s[n..], k)
  {
    if s != [] && InClass(s[0], k) then
      var n := 1 + Run(s[1..], k);
      assert s[n..] == s[1..][n - 1..];
      assert s[..n] == [s[0]] + s[1..][..n - 1];
      n
    else 0
  }

  lemma SplitAt(s: String, n: nat)
    requires n <= |s|
    ensures s == s[..n] + s[n..]
  {
  }

  lemma SplitFirst(s: String)
    requires s != []
    ensures s == [s[0]] + s[1..]
  {
  }

  lemma Assoc5(a: String, b: String, c: String, d: String, e: String)
    ensures a + (b + (c + d + e)) == a + b + c + d + e
  {
  }

  /** A greedy run over `a + b` covers exactly `a` when every character of `a` is in the class and `b` stops it. */
  lemma {:induction false} RunOf(a: String, b: String, k: CharClass)
    requires AllInClass(a, k) && StopsRun(b, k)
    ensures Run(a + b, k) == |a|
    decreases |a|
  {
    if a != [] {
      assert (a + b)[1..] == a[1..] + b;
      RunOf(a[1..], b, k);
    } else {
      assert a + b == b;
    }
  }

  /** A greedy run over `a + b` covers at least `a` when `a` is in the class. */
  lemma {:induction false} RunCovers(a: String, b: String, k: CharClass)
    requires AllInClass(a, k)
    ensures |a| <= Run(a + b, k)
    decreases |a|
  {
    if a != [] {
      assert (a + b)[1..] == a[1..] + b;
      RunCovers(a[1..], b, k);
    }
  }

  // ---------------------------------------------------------------------------
  // The line tail `(.*)$`
  // ---------------------------------------------------------------------------

  /**
   * What may follow the `.*` for `$` to match: nothing, one line terminator, or
   * the pair CR LF, at the very end of the input.
   */
  predicate IsEndOfInput(term: String) {
    term == [] || (|term| == 1 && IsRegexLineTerminator(term[0])) || term == "\r\n"
  }

  /**
   * `(.*)$` applied to `s`: the captured text if `$` can match after the
   * longest run of non-terminators, nothing otherwise.
   */
  function LineTail(s: String): (r: Option<String>)
    ensures r.Some? ==> |r.value| <= |s| && r.value == s[..|r.value|]
    ensures r.Some? ==> AllInClass(r.value, NonTerminators) && IsEndOfInput(s[|r.value|..])
  {
    var p := Run(s, NonTerminators);
    if p == |s| || p == |s| - 1 || (p == |s| - 2 && s[p..] == "\r\n") then Some(s[..p])
    else None
  }

  /** The tail of a text followed by an end of input is that text. */
  lemma LineTailOf(text: String, term: String)
    requires AllInClass(text, NonTerminators) && IsEndOfInput(term)
    ensures LineTail(text + term) == Some(text)
  {
    RunOf(text, term, NonTerminators);
    assert (text + term)[..|text|] == text;
    assert (text + term)[|text|..] == term;
  }

  // ---------------------------------------------------------------------------
  // The space-separated tail `\s*(.*)$` and `\s+(.*)$`
  // ---------------------------------------------------------------------------

  /**
   * `\s*(.*)$` applied to `s` (or `\s+(.*)$` when `atLeastOne`): the captured
   * text after the longest run of white space.
   */
  function SpacedTail(s: String, atLeastOne: bool): (r: Option<String>)
    ensures r.Some? ==> |r.value| <= |s| && AllInClass(r.value, NonTerminators)
    ensures r.Some? ==> StopsRun(r.value, SpaceChars)
  {
    var w := Run(s, SpaceChars);
    if atLeastOne && w == 0 then None
    else
      var r := LineTail(s[w..]);
      assert r.Some? && r.value != [] ==> r.value[0] == s[w..][0];
      r
  }

  /** Any end of input ending a run of spaces leaves an empty capture. */
  lemma EndOfInputAfterSpaces(ws: String, term: String, atLeastOne: bool)
    requires AllInClass(ws, SpaceChars) && (atLeastOne ==> ws != []) && IsEndOfInput(term)
    ensures SpacedTail(ws + term, atLeastOne) == Some([])
  {
    var s := ws + term;
    if term == "\r\n" {
      assert AllInClass(s, SpaceChars);
      RunCovers(s, [], SpaceChars);
      assert s + [] == s;
    } else {
      RunCovers(ws, term, SpaceChars);
    }
    var w := Run(s, SpaceChars);
    var rest := s[w..];
    assert rest == [] || rest == term;
    if rest != [] {
      LineTailOf([], rest);
      assert [] + rest == rest;
    }
  }

  /**
   * Building a line tail: white space, then a text that neither starts with white
   * space nor holds a line terminator, then an end of input, captures that text.
   */
  lemma SpacedTailOf(ws: String, text: String, term: String, atLeastOne: bool)
    requires AllInClass(ws, SpaceChars) && (atLeastOne ==> ws != [])
    requires AllInClass(text, NonTerminators) && StopsRun(text, SpaceChars)
    requires IsEndOfInput(term)
    ensures SpacedTail(ws + text + term, atLeastOne) == Some(text)
  {
    if text == [] {
      assert ws + text + term == ws + term;
      EndOfInputAfterSpaces(ws, term, atLeastOne);
    } else {
      assert ws + text + term == ws + (text + term);
      RunOf(ws, text + term, SpaceChars);
      assert (ws + (text + term))[|ws|..] == text + term;
      LineTailOf(text, term);
    }
  }

  /** A capture decomposes its input into white space, the text and an end of input. */
  lemma SpacedTailParts(s: String, atLeastOne: bool) returns (ws: String, term: String)
    requires SpacedTail(s, atLeastOne).Some?
    ensures s == ws + SpacedTail(s, atLeastOne).value + term
    ensures AllInClass(ws, SpaceChars) && (atLeastOne ==> ws != []) && IsEndOfInput(term)
  {
    var w := Run(s, SpaceChars);
    var text := SpacedTail(s, atLeastOne).value;
    ws := s[..w];
    term := s[w + |text|..];
    assert s == s[..w] + s[w..][..|text|] + s[w..][|text|..];
  }

  // ---------------------------------------------------------------------------
  // Whole-line patterns
  // ---------------------------------------------------------------------------

  /** The box marker of a task: `[ xX]`. */
  predicate IsBoxMarker(c: char) {
    c == ' ' || c == 'x' || c == 'X'
  }

  /** An unordered-list bullet: `[-*+]`. */
  predicate IsBullet(c: char) {
    c == '-' || c == '*' || c == '+'
  }

  /** An ordered-list separator: `[.)]`. */
  predicate IsOrderedSeparator(c: char) {
    c == '.' || c == ')'
  }

  /** What a pattern's text group must be: no line terminator, and no white space to start with. */
  predicate IsTailText(text: String) {
    AllInClass(text, NonTerminators) && StopsRun(text, SpaceChars)
  }

  /** Splitting a line after its indentation `[ \t]*`. */
  lemma IndentOf(indent: String, rest: String)
    requires AllInClass(indent, IndentChars) && StopsRun(rest, IndentChars)
    ensures Run(indent + rest, IndentChars) == |indent|
    ensures (indent + rest)[..|indent|] == indent && (indent + rest)[|indent|..] == rest
  {
    RunOf(indent, rest, IndentChars);
  }

  // Regrouping concatenations, each proved apart from any other fact.

  lemma Regroup3(a: String, b: String, c: String)
    ensures a + b + c == a + (b + c)
  {
  }

  lemma RegroupTail(a: String, ws: String, text: String, term: String)
    ensures a + ws + text + term == a + (ws + text + term)
  {
  }

  lemma RegroupBox(indent: String, m: char, tail: String)
    ensures indent + "- [" + [m] + "]" + tail == indent + ("- [" + [m] + "]" + tail)
    ensures var rest := "- [" + [m] + "]" + tail;
      |rest| >= 5 && rest[..3] == "- [" && rest[3] == m && rest[4] == ']' && rest[5..] == tail
  {
  }

  lemma BoxPrefix(s: String)
    requires |s| >= 5 && s[..3] == "- [" && s[4] == ']'
    ensures s == "- [" + [s[3]] + "]" + s[5..]
  {
    assert s == s[..5] + s[5..];
    assert s[..5] == "- [" + [s[3]] + "]";
  }

  /** The groups of `^([ \t]*)- \[([ xX])\]\s*(.*)$`. */
  datatype TaskMatch = TaskMatch(indentation: String, marker: char, text: String)

  function MatchTask(line: String): (r: Option<TaskMatch>)
    ensures r.Some? ==> AllInClass(r.value.indentation, IndentChars) && IsBoxMarker(r.value.marker)
    ensures r.Some? ==> IsTailText(r.value.text)
  {
    var n := Run(line, IndentChars);
    var rest := line[n..];
    if |rest| >= 5 && rest[..3] == "- [" && IsBoxMarker(rest[3]) && rest[4] == ']' then
      match SpacedTail(rest[5..], false)
      case Some(text) => Some(TaskMatch(line[..n], rest[3], text))
      case None => None
    else None
  }

  /** A line built from the groups matches with exactly those groups. */
  lemma MatchTaskOf(indent: String, m: char, ws: String, text: String, term: String)
    requires AllInClass(indent, IndentChars) && IsBoxMarker(m) && AllInClass(ws, SpaceChars)
    requires IsTailText(text) && IsEndOfInput(term)
    ensures MatchTask(indent + "- [" + [m] + "]" + ws + text + term) == Some(TaskMatch(indent, m, text))
  {
    var tail := ws + text + term;
    var box := "- [" + [m] + "]";
    RegroupTail(indent + "- [" + [m] + "]", ws, text, term);
    RegroupBox(indent, m, tail);
    IndentOf(indent, box + tail);
    SpacedTailOf(ws, text, term, false);
  }

  /** A match splits its line into the groups, the white space and an end of input. */
  lemma MatchTaskParts(line: String) returns (ws: String, term: String)
    requires MatchTask(line).Some?
    ensures var t := MatchTask(line).value;
      line == t.indentation + "- [" + [t.marker] + "]" + ws + t.text + term
    ensures AllInClass(ws, SpaceChars) && IsEndOfInput(term)
  {
    var n := Run(line, IndentChars);
    var rest := line[n..];
    ws, term := SpacedTailParts(rest[5..], false);
    var t := MatchTask(line).value;
    BoxPrefix(rest);
    SplitAt(line, n);
    RegroupBox(line[..n], rest[3], rest[5..]);
    RegroupTail(line[..n] + "- [" + [rest[3]] + "]", ws, t.text, term);
  }

  /** The groups of `^([ \t]*)([-*+])\s+(.*)$`. */
  datatype UnorderedMatch = UnorderedMatch(indentation: String, bullet: char, text: String)

  function MatchUnordered(line: String): (r: Option<UnorderedMatch>)
    ensures r.Some? ==> AllInClass(r.value.indentation, IndentChars) && IsBullet(r.value.bullet)
    ensures r.Some? ==> IsTailText(r.value.text)
  {
    var n := Run(line, IndentChars);
    var rest := line[n..];
    if |rest| >= 1 && IsBullet(rest[0]) then
      match SpacedTail(rest[1..], true)
      case Some(text) => Some(UnorderedMatch(line[..n], rest[0], text))
      case None => None
    else None
  }

  lemma MatchUnorderedOf(indent: String, bullet: char, ws: String, text: String, term: String)
    requires AllInClass(indent, IndentChars) && IsBullet(bullet) && AllInClass(ws, SpaceChars) && ws != []
    requires IsTailText(text) && IsEndOfInput(term)
    ensures MatchUnordered(indent + [bullet] + ws + text + term) == Some(UnorderedMatch(indent, bullet, text))
  {
    var tail := ws + text + term;
    RegroupTail(indent + [bullet], ws, text, term);
    Regroup3(indent, [bullet], tail);
    IndentOf(indent, [bullet] + tail);
    assert ([bullet] + tail)[1..] == tail;
    SpacedTailOf(ws, text, term, true);
  }

  lemma MatchUnorderedParts(line: String) returns (ws: String, term: String)
    requires MatchUnordered(line).Some?
    ensures var u := MatchUnordered(line).value;
      line == u.indentation + [u.bullet] + ws + u.text + term
    ensures AllInClass(ws, SpaceChars) && ws != [] && IsEndOfInput(term)
  {
    var n := Run(line, IndentChars);
    var rest := line[n..];
    ws, term := SpacedTailParts(rest[1..], true);
    var u := MatchUnordered(line).value;
    SplitFirst(rest);
    SplitAt(line, n);
    Regroup3(line[..n], [rest[0]], rest[1..]);
    RegroupTail(line[..n] + [rest[0]], ws, u.text, term);
  }

  /** The groups of `^([ \t]*)(\d+)([.)])\s+(.*)$`. */
  datatype OrderedMatch = OrderedMatch(indentation: String, number: String, separator: char, text: String)

  function MatchOrdered(line: String): (r: Option<OrderedMatch>)
    ensures r.Some? ==> AllInClass(r.value.indentation, IndentChars)
    ensures r.Some? ==> r.value.number != [] && AllInClass(r.value.number, DigitChars)
    ensures r.Some? ==> IsOrderedSeparator(r.value.separator) && IsTailText(r.value.text)
  {
    var n := Run(line, IndentChars);
    var rest := line[n..];
    var d := Run(rest, DigitChars);
    if 1 <= d < |rest| && IsOrderedSeparator(rest[d]) then
      match SpacedTail(rest[d + 1..], true)
      case Some(text) => Some(OrderedMatch(line[..n], rest[..d], rest[d], text))
      case None => None
    else None
  }

  lemma RegroupOrdered(indent: String, number: String, sep: char, tail: String)
    ensures indent + number + [sep] + tail == indent + (number + ([sep] + tail))
    ensures (number + ([sep] + tail))[..|number|] == number
    ensures (number + ([sep] + tail))[|number|] == sep
    ensures (number + ([sep] + tail))[|number| + 1..] == tail
  {
  }

  lemma MatchOrderedOf(indent: String, number: String, sep: char, ws: String, text: String, term: String)
    requires AllInClass(indent, IndentChars) && number != [] && AllInClass(number, DigitChars)
    requires IsOrderedSeparator(sep) && AllInClass(ws, SpaceChars) && ws != []
    requires IsTailText(text) && IsEndOfInput(term)
    ensures MatchOrdered(indent + number + [sep] + ws + text + term)
      == Some(OrderedMatch(indent, number, sep, text))
  {
    var tail := ws + text + term;
    RegroupTail(indent + number + [sep], ws, text, term);
    RegroupOrdered(indent, number, sep, tail);
    var rest := number + ([sep] + tail);
    assert rest[0] == number[0];
    IndentOf(indent, rest);
    RunOf(number, [sep] + tail, DigitChars);
    SpacedTailOf(ws, text, term, true);
  }

  lemma MatchOrderedParts(line: String) returns (ws: String, term: String)
    requires MatchOrdered(line).Some?
    ensures var o := MatchOrdered(line).value;
      line == o.indentation + o.number + [o.separator] + ws + o.text + term
    ensures AllInClass(ws, SpaceChars) && ws != [] && IsEndOfInput(term)
  {
    var n := Run(line, IndentChars);
    var rest := line[n..];
    var d := Run(rest, DigitChars);
    ws, term := SpacedTailParts(rest[d + 1..], true);
    var o := MatchOrdered(line).value;
    SplitAt(rest, d);
    SplitFirst(rest[d..]);
    assert rest[d..][1..] == rest[d + 1..];
    SplitAt(line, n);
    RegroupOrdered(line[..n], rest[..d], rest[d], rest[d + 1..]);
    RegroupTail(line[..n] + rest[..d] + [rest[d]], ws, o.text, term);
  }

  /** An ordered line starts, after its indentation, with the first digit of its number. */
  lemma OrderedLineStart(indent: String, number: String, sep: char, ws: String, text: String, term: String)
    requires AllInClass(indent, IndentChars) && number != [] && AllInClass(number, DigitChars)
    ensures var line := indent + number + [sep] + ws + text + term;
      Run(line, IndentChars) == |indent| < |line| && line[|indent|] == number[0]
  {
    var tail := ws + text + term;
    RegroupTail(indent + number + [sep], ws, text, term);
    RegroupOrdered(indent, number, sep, tail);
    var rest := number + ([sep] + tail);
    assert rest[0] == number[0];
    IndentOf(indent, rest);
  }

  /** A line whose first character after the indentation is not a bullet is neither a task nor an unordered item. */
  lemma NotBulleted(line: String)
    requires Run(line, IndentChars) < |line| && !IsBullet(line[Run(line, IndentChars)])
    ensures MatchBulletTask(line).None? && MatchUnordered(line).None?
  {
  }

  /** A line whose first character after the indentation is not `#` is no heading. */
  lemma NotHeading(line: String)
    requires Run(line, IndentChars) < |line| && line[Run(line, IndentChars)] != '#'
    ensures MatchHeading(line).None?
  {
    var n := Run(line, IndentChars);
    assert line[n..][0] == line[n];
  }

  /** The groups of `^([ \t]*)(#{1,6})\s+(.*)$`. */
  datatype HeadingMatch = HeadingMatch(indentation: String, marker: String, text: String)

  function MatchHeading(line: String): (r: Option<HeadingMatch>)
    ensures r.Some? ==> AllInClass(r.value.indentation, IndentChars)
    ensures r.Some? ==> 1 <= |r.value.marker| <= 6 && AllInClass(r.value.marker, HashChars)
    ensures r.Some? ==> IsTailText(r.value.text)
  {
    var n := Run(line, IndentChars);
    var rest := line[n..];
    var h := Run(rest, HashChars);
    if 1 <= h <= 6 then
      match SpacedTail(rest[h..], true)
      case Some(text) => Some(HeadingMatch(line[..n], rest[..h], text))
      case None => None
    else None
  }

  lemma MatchHeadingOf(indent: String, marker: String, ws: String, text: String, term: String)
    requires AllInClass(indent, IndentChars) && 1 <= |marker| <= 6 && AllInClass(marker, HashChars)
    requires AllInClass(ws, SpaceChars) && ws != []
    requires IsTailText(text) && IsEndOfInput(term)
    ensures MatchHeading(indent + marker + ws + text + term) == Some(HeadingMatch(indent, marker, text))
  {
    var tail := ws + text + term;
    RegroupTail(indent + marker, ws, text, term);
    Regroup3(indent, marker, tail);
    var rest := marker + tail;
    assert rest[0] == marker[0];
    IndentOf(indent, rest);
    assert tail[0] == ws[0];
    RunOf(marker, tail, HashChars);
    assert rest[..|marker|] == marker && rest[|marker|..] == tail;
    SpacedTailOf(ws, text, term, true);
  }

  lemma MatchHeadingParts(line: String) returns (ws: String, term: String)
    requires MatchHeading(line).Some?
    ensures var h := MatchHeading(line).value;
      line == h.indentation + h.marker + ws + h.text + term
    ensures AllInClass(ws, SpaceChars) && ws != [] && IsEndOfInput(term)
  {
    var n := Run(line, IndentChars);
    var rest := line[n..];
    var h := Run(rest, HashChars);
    ws, term := SpacedTailParts(rest[h..], true);
    var hm := MatchHeading(line).value;
    SplitAt(rest, h);
    SplitAt(line, n);
    Regroup3(line[..n], rest[..h], rest[h..]);
    RegroupTail(line[..n] + rest[..h], ws, hm.text, term);
  }

  /** The groups of `^([ \t]*)([-*+])\s+\[(?: |x|X)\]\s*(.*)$`. */
  datatype BulletTaskMatch = BulletTaskMatch(indentation: String, bullet: char, text: String)

  /** `[ xX]` between brackets, then `\s*(.*)$`. */
  function BoxTail(box: String): (r: Option<String>)
    ensures r.Some? ==> IsTailText(r.value)
  {
    if |box| >= 3 && box[0] == '[' && IsBoxMarker(box[1]) && box[2] == ']' then SpacedTail(box[3..], false)
    else None
  }

  function MatchBulletTask(line: String): (r: Option<BulletTaskMatch>)
    ensures r.Some? ==> AllInClass(r.value.indentation, IndentChars) && IsBullet(r.value.bullet)
    ensures r.Some? ==> IsTailText(r.value.text)
  {
    var n := Run(line, IndentChars);
    var rest := line[n..];
    if |rest| >= 1 && IsBullet(rest[0]) then
      var w := Run(rest[1..], SpaceChars);
      if w >= 1 then
        match BoxTail(rest[1..][w..])
        case Some(text) => Some(BulletTaskMatch(line[..n], rest[0], text))
        case None => None
      else None
    else None
  }

  lemma BoxTailOf(m: char, ws: String, text: String, term: String)
    requires IsBoxMarker(m) && AllInClass(ws, SpaceChars) && IsTailText(text) && IsEndOfInput(term)
    ensures BoxTail("[" + [m] + "]" + (ws + text + term)) == Some(text)
  {
    var tail := ws + text + term;
    assert ("[" + [m] + "]" + tail)[3..] == tail;
    SpacedTailOf(ws, text, term, false);
  }

  lemma RegroupBulletTask(indent: String, bullet: char, ws1: String, m: char, tail: String)
    ensures indent + [bullet] + ws1 + "[" + [m] + "]" + tail
      == indent + ([bullet] + (ws1 + ("[" + [m] + "]" + tail)))
    ensures ([bullet] + (ws1 + ("[" + [m] + "]" + tail)))[1..] == ws1 + ("[" + [m] + "]" + tail)
    ensures (ws1 + ("[" + [m] + "]" + tail))[|ws1|..] == "[" + [m] + "]" + tail
  {
  }

  lemma MatchBulletTaskOf(indent: String, bullet: char, ws1: String, m: char, ws2: String, text: String, term: String)
    requires AllInClass(indent, IndentChars) && IsBullet(bullet) && AllInClass(ws1, SpaceChars) && ws1 != []
    requires IsBoxMarker(m) && AllInClass(ws2, SpaceChars)
    requires IsTailText(text) && IsEndOfInput(term)
    ensures MatchBulletTask(indent + [bullet] + ws1 + "[" + [m] + "]" + ws2 + text + term)
      == Some(BulletTaskMatch(indent, bullet, text))
  {
    var tail := ws2 + text + term;
    var box := "[" + [m] + "]" + tail;
    RegroupTail(indent + [bullet] + ws1 + "[" + [m] + "]", ws2, text, term);
    RegroupBulletTask(indent, bullet, ws1, m, tail);
    IndentOf(indent, [bullet] + (ws1 + box));
    RunOf(ws1, box, SpaceChars);
    BoxTailOf(m, ws2, text, term);
  }

  lemma BracketPrefix(box: String)
    requires |box| >= 3 && box[0] == '[' && box[2] == ']'
    ensures box == "[" + [box[1]] + "]" + box[3..]
  {
    assert box == box[..3] + box[3..];
    assert box[..3] == "[" + [box[1]] + "]";
  }

  lemma BoxTailParts(box: String) returns (m: char, ws: String, term: String)
    requires BoxTail(box).Some?
    ensures box == "[" + [m] + "]" + ws + BoxTail(box).value + term
    ensures IsBoxMarker(m) && AllInClass(ws, SpaceChars) && IsEndOfInput(term)
  {
    m := box[1];
    ws, term := SpacedTailParts(box[3..], false);
    BracketPrefix(box);
    RegroupTail("[" + [m] + "]", ws, BoxTail(box).value, term);
  }

  lemma MatchBulletTaskParts(line: String) returns (ws1: String, m: char, ws2: String, term: String)
    requires MatchBulletTask(line).Some?
    ensures var t := MatchBulletTask(line).value;
      line == t.indentation + [t.bullet] + ws1 + "[" + [m] + "]" + ws2 + t.text + term
    ensures AllInClass(ws1, SpaceChars) && ws1 != [] && IsBoxMarker(m)
    ensures AllInClass(ws2, SpaceChars) && IsEndOfInput(term)
  {
    var n := Run(line, IndentChars);
    var rest := line[n..];
    var after := rest[1..];
    var w := Run(after, SpaceChars);
    var box := after[w..];
    var t := MatchBulletTask(line).value;
    ws1 := after[..w];
    m, ws2, term := BoxTailParts(box);
    SplitAt(after, w);
    SplitFirst(rest);
    SplitAt(line, n);
    RegroupBulletTask(line[..n], rest[0], ws1, m, ws2 + t.text + term);
    RegroupTail(line[..n] + [rest[0]] + ws1 + "[" + [m] + "]", ws2, t.text, term);
    RegroupTail("[" + [m] + "]", ws2, t.text, term);
  }

  // ---------------------------------------------------------------------------
  // Prefix patterns removed from the start of a line's content
  // ---------------------------------------------------------------------------

  /** The length of the match of `^#{1,6}\s+` at the start of `s`, if any. */
  function HeadingMarkLength(s: String): (r: Option<nat>)
    ensures r.Some? ==> r.value <= |s|
  {
    var h := Run(s, HashChars);
    if 1 <= h <= 6 && h < |s| && IsRegexSpace(s[h]) then Some(h + Run(s[h..], SpaceChars)) else None
  }

  /** The length of the match of `^\d+\.\s+` at the start of `s`, if any. */
  function NumberMarkLength(s: String): (r: Option<nat>)
    ensures r.Some? ==> r.value <= |s|
  {
    var d := Run(s, DigitChars);
    if 1 <= d && d + 1 < |s| && s[d] == '.' && IsRegexSpace(s[d + 1]) then
      Some(d + 1 + Run(s[d + 1..], SpaceChars))
    else None
  }

  /** The length of the match of `^- \[[ xX]\]\s*` at the start of `s`, if any. */
  function TaskBoxLength(s: String): (r: Option<nat>)
    ensures r.Some? ==> r.value <= |s|
  {
    if |s| >= 5 && s[..3] == "- [" && IsBoxMarker(s[3]) && s[4] == ']' then Some(5 + Run(s[5..], SpaceChars))
    else None
  }

  /** A heading mark followed by white space and a text that does not start with it is removed exactly. */
  lemma HeadingMarkLengthOf(marker: String, ws: String, rest: String)
    requires 1 <= |marker| <= 6 && AllInClass(marker, HashChars)
    requires ws != [] && AllInClass(ws, SpaceChars) && StopsRun(rest, SpaceChars)
    ensures HeadingMarkLength(marker + ws + rest) == Some(|marker| + |ws|)
  {
    var tail := ws + rest;
    var s := marker + ws + rest;
    assert s == marker + tail by { Regroup3(marker, ws, rest); }
    assert Run(s, HashChars) == |marker| by {
      assert StopsRun(tail, HashChars) by { assert tail[0] == ws[0]; }
      RunOf(marker, tail, HashChars);
    }
    assert s[|marker|..] == tail && IsRegexSpace(s[|marker|]) by {
      assert s[|marker|] == tail[0] == ws[0];
      assert InClass(ws[0], SpaceChars);
    }
    assert Run(tail, SpaceChars) == |ws| by { RunOf(ws, rest, SpaceChars); }
    HeadingMarkLengthFrom(s, |marker|, |ws|);
  }

  /** The heading mark from a run of `h` hashes followed by `w` white space characters. */
  lemma HeadingMarkLengthFrom(s: String, h: nat, w: nat)
    requires Run(s, HashChars) == h && 1 <= h <= 6 && h < |s| && IsRegexSpace(s[h])
    requires Run(s[h..], SpaceChars) == w
    ensures HeadingMarkLength(s) == Some(h + w)
  {
  }

  /** When `s` does not start with `#`, there is no heading mark. */
  lemma HeadingMarkLengthNone(s: String)
    requires StopsRun(s, HashChars)
    ensures HeadingMarkLength(s).None?
  {
    assert s + [] == s;
    RunOf([], s, HashChars);
  }

  /** A number followed by ". " and a text that does not start with white space has a mark of the number's length plus two. */
  lemma NumberMarkLengthOf(digits: String, rest: String)
    requires digits != [] && AllInClass(digits, DigitChars) && StopsRun(rest, SpaceChars)
    ensures NumberMarkLength(digits + ". " + rest) == Some(|digits| + 2)
  {
    var tail := ". " + rest;
    Regroup3(digits, ". ", rest);
    DotSpaceTail(rest);
    RunOf(digits, tail, DigitChars);
    NumberMarkAt(digits, tail);
  }

  lemma DotSpaceTail(rest: String)
    requires StopsRun(rest, SpaceChars)
    ensures var tail := ". " + rest;
      |tail| >= 2 && tail[0] == '.' && IsRegexSpace(tail[1]) && Run(tail[1..], SpaceChars) == 1
  {
    assert (". " + rest)[1..] == " " + rest;
    RunOf(" ", rest, SpaceChars);
  }

  lemma NumberMarkAt(digits: String, tail: String)
    requires digits != [] && Run(digits + tail, DigitChars) == |digits|
    requires |tail| >= 2 && tail[0] == '.' && IsRegexSpace(tail[1]) && Run(tail[1..], SpaceChars) == 1
    ensures NumberMarkLength(digits + tail) == Some(|digits| + 2)
  {
    assert (digits + tail)[|digits| + 1..] == tail[1..];
  }

  /** When `s` does not start with a digit, there is no number mark. */
  lemma NumberMarkLengthNone(s: String)
    requires StopsRun(s, DigitChars)
    ensures NumberMarkLength(s).None?
  {
    assert s + [] == s;
    RunOf([], s, DigitChars);
  }
}
