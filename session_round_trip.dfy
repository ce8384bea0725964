/**
 * Reading a rendered session document back (`SessionMarkdownCodec.parse` after
 * `render`): under the conditions that keep the layout unambiguous, the parse
 * recovers the title, the tag names, the start and end, and each item's content,
 * time and type, in the rendered (ascending timestamp) order.
 */
module SessionRoundTrip {
  import opened Wrappers
  import opened Text
  import opened DateTime
  import opened Dedup
  import opened Uuids
  import opened SessionTags
  import opened CapturedItems
  import opened FocusModes
  import opened SessionCodec
  import FocusDomain

  // ---------------------------------------------------------------------------
  // Strings
  // ---------------------------------------------------------------------------

  /** A trimmed text with one space after it trims back to itself. */
  lemma TrimTrailingSpace(x: String)
    requires x != [] && Trim(x, WhitespacesAndNewlines) == x
    ensures Trim(x + " ", WhitespacesAndNewlines) == x
  {
    TrimStartOfTrimmed(x + " ", WhitespacesAndNewlines);
    TrimEndSnoc(x, ' ', WhitespacesAndNewlines);
    TrimEndOfTrimmed(x, WhitespacesAndNewlines);
  }

  /** A text with one leading space trims back to itself when it neither starts nor ends with a member. */
  lemma TrimLeadingSpace(x: String, cs: CharSet)
    requires InSet(' ', cs)
    requires x == [] || (!InSet(x[0], cs) && !InSet(x[|x| - 1], cs))
    ensures Trim(" " + x, cs) == x
  {
    TrimStartCons(' ', x, cs);
    TrimStartOfTrimmed(x, cs);
    TrimEndOfTrimmed(x, cs);
  }

  lemma NoneInAppend(a: String, b: String, cs: CharSet)
    requires NoneIn(a, cs) && NoneIn(b, cs)
    ensures NoneIn(a + b, cs)
  {
    forall i | 0 <= i < |a + b| ensures !InSet((a + b)[i], cs) {
      if i >= |a| {
        assert (a + b)[i] == b[i - |a|];
      }
    }
  }

  /** Texts that join alike still join alike when the same parts follow. */
  lemma JoinSameThenSame(a: seq<String>, b: seq<String>, x: seq<String>, sep: String)
    requires |a| >= 1 && |b| >= 1 && Join(a, sep) == Join(b, sep)
    ensures Join(a + x, sep) == Join(b + x, sep)
  {
    if x == [] {
      assert a + x == a && b + x == b;
    } else {
      JoinConcat(a, x, sep);
      JoinConcat(b, x, sep);
    }
  }

  lemma {:induction false} NonEmptyPiecesAll(parts: seq<String>)
    requires forall i :: 0 <= i < |parts| ==> parts[i] != []
    ensures NonEmptyPieces(parts) == parts
    decreases |parts|
  {
    if parts != [] {
      NonEmptyPiecesAll(parts[1..]);
    }
  }

  // ---------------------------------------------------------------------------
  // The tags line
  // ---------------------------------------------------------------------------

  /** A tag name the tags line carries unchanged: non-empty, trimmed, lowercase, without commas or line breaks. */
  predicate PlainName(n: String) {
    n != [] && Trim(n, WhitespacesAndNewlines) == n && IsLowercase(n) && ',' !in n && NoneIn(n, Newlines)
  }

  /** The comma-separated pieces of `pre + Join(names, ", ")`: the first after `pre`, the others after a space. */
  function SpacedPieces(pre: String, names: seq<String>): (r: seq<String>)
    requires |names| >= 1
    ensures |r| == |names|
  {
    seq(|names|, i requires 0 <= i < |names| => if i == 0 then pre + names[0] else " " + names[i])
  }

  lemma JoinSpacedStep(pre: String, names: seq<String>)
    requires |names| >= 2
    ensures pre + Join(names, ", ") == (pre + names[0]) + [','] + (" " + Join(names[1..], ", "))
  {
  }

  lemma SpacedPiecesStep(pre: String, names: seq<String>)
    requires |names| >= 2
    ensures [pre + names[0]] + SpacedPieces(" ", names[1..]) == SpacedPieces(pre, names)
  {
  }

  lemma {:induction false} SplitSpacedJoin(pre: String, names: seq<String>)
    requires |names| >= 1 && ',' !in pre
    requires forall i :: 0 <= i < |names| ==> ',' !in names[i]
    ensures Split(pre + Join(names, ", "), Just(',')) == SpacedPieces(pre, names)
    decreases |names|
  {
    if |names| == 1 {
      SplitFree(pre + names[0], Just(','));
    } else {
      JoinSpacedStep(pre, names);
      SplitAtSeparator(pre + names[0], ',', " " + Join(names[1..], ", "), Just(','));
      SplitSpacedJoin(" ", names[1..]);
      SpacedPiecesStep(pre, names);
    }
  }

  /** Lowercasing and trimming a plain name, with or without one space before it, gives the name back. */
  lemma TrimLowerSpaced(pre: String, n: String)
    requires PlainName(n) && (pre == "" || pre == " ")
    ensures TrimLower(pre + n) == n
  {
    if pre == " " {
      TrimLeadingSpace(n, WhitespacesAndNewlines);
    } else {
      assert pre + n == n;
    }
    TrimLowerOfNormal(n);
  }

  lemma SpacedPieceAt(names: seq<String>, i: nat)
    requires i < |names|
    ensures SpacedPieces("", names)[i] == (if i == 0 then "" else " ") + names[i]
  {
  }

  lemma NormalizeAllSpaced(names: seq<String>)
    requires |names| >= 1
    requires forall i :: 0 <= i < |names| ==> PlainName(names[i])
    ensures NormalizeAll(SpacedPieces("", names)) == names
  {
    var pieces := SpacedPieces("", names);
    forall i | 0 <= i < |names| ensures NormalizeAll(pieces)[i] == names[i] {
      SpacedPieceAt(names, i);
      TrimLowerSpaced(if i == 0 then "" else " ", names[i]);
    }
  }

  /** Splitting at commas and omitting empty pieces keeps every piece when none is empty. */
  lemma SplitOmittingOf(input: String, pieces: seq<String>)
    requires Split(input, Just(',')) == pieces
    requires forall i :: 0 <= i < |pieces| ==> pieces[i] != []
    ensures SplitOmittingEmpty(input, ',') == pieces
  {
    NonEmptyPiecesAll(pieces);
  }

  lemma SpacedPiecesNonEmpty(names: seq<String>)
    requires |names| >= 1
    requires forall i :: 0 <= i < |names| ==> names[i] != []
    ensures forall i :: 0 <= i < |names| ==> SpacedPieces("", names)[i] != []
  {
  }

  lemma SplitOfSpacedJoin(names: seq<String>)
    requires |names| >= 1
    requires forall i :: 0 <= i < |names| ==> names[i] != [] && ',' !in names[i]
    ensures SplitOmittingEmpty(Join(names, ", "), ',') == SpacedPieces("", names)
  {
    var j := Join(names, ", ");
    SplitSpacedJoin("", names);
    assert "" + j == j;
    SpacedPiecesNonEmpty(names);
    SplitOmittingOf(j, SpacedPieces("", names));
  }

  /** Distinct plain names joined by ", " are read back by `parseTagInput` as they are. */
  lemma TagInputTagsOf(input: String, pieces: seq<String>, names: seq<String>)
    requires SplitOmittingEmpty(input, ',') == pieces && NormalizeAll(pieces) == names
    requires FirstOccurrences(names) == names
    ensures FocusDomain.TagInputTags(input) == names
  {
  }

  lemma TagInputOfJoin(names: seq<String>)
    requires |names| >= 1 && Distinct(names)
    requires forall i :: 0 <= i < |names| ==> names[i] != [] && ',' !in names[i]
    requires NormalizeAll(SpacedPieces("", names)) == names
    ensures FocusDomain.TagInputTags(Join(names, ", ")) == names
  {
    SplitOfSpacedJoin(names);
    FirstOccurrencesOfDistinct(names);
    TagInputTagsOf(Join(names, ", "), SpacedPieces("", names), names);
  }

  /** The text after "Tags:" on a tags line is the names joined by ", ", the space after the colon trimmed away. */
  lemma TagsTextOfTagsLine(tags: seq<SessionTag>)
    requires forall i :: 0 <= i < |tags| ==> PlainName(tags[i].name)
    ensures TagsText(TagsLine(tags)) == Join(TagNames(tags), ", ")
  {
    var names := TagNames(tags);
    var j := Join(names, ", ");
    assert Drop(TagsLine(tags), 5) == " " + j;
    if names != [] {
      JoinFirst(names, ", ");
      JoinLast(names, ", ");
      assert !InSet(j[0], Whitespaces) && !InSet(j[|j| - 1], Whitespaces);
    }
    TrimLeadingSpace(j, Whitespaces);
  }

  lemma TagsOfLineOf(line: String, names: seq<String>, tagIds: nat -> Uuid)
    requires TagsText(line) != [] && FocusDomain.TagInputTags(TagsText(line)) == names
    ensures TagsOfLine(line, tagIds) == TagsNamed(names, tagIds)
  {
  }

  /** The tags line of a session with distinct plain names reads back as tags with those names. */
  lemma TagsOfTagsLine(tags: seq<SessionTag>, tagIds: nat -> Uuid)
    requires Distinct(TagNames(tags))
    requires forall i :: 0 <= i < |tags| ==> PlainName(tags[i].name)
    ensures TagsOfLine(TagsLine(tags), tagIds) == TagsNamed(TagNames(tags), tagIds)
  {
    var names := TagNames(tags);
    TagsTextOfTagsLine(tags);
    if tags != [] {
      NormalizeAllSpaced(names);
      TagInputOfJoin(names);
      TagsOfLineOf(TagsLine(tags), names, tagIds);
    }
  }

  // ---------------------------------------------------------------------------
  // Formatted dates and types
  // ---------------------------------------------------------------------------

  /** "HH:mm" is non-empty and has neither a space nor a line break. */
  lemma FormatTimeShape(d: Date)
    ensures var t := FormatTime(d); t != [] && ' ' !in t && NoneIn(t, Newlines)
  {
    var a, b := Pad2(d.hour), Pad2(d.minute);
    DigitsFree(a);
    DigitsFree(b);
    NoneInAppend(a, ":", Newlines);
    NoneInAppend(a + ":", b, Newlines);
  }

  lemma PrefixFree(t: ItemType)
    ensures NoneIn(t.Prefix(), Newlines)
  {
  }

  // ---------------------------------------------------------------------------
  // The document's lines
  // ---------------------------------------------------------------------------

  /** Each item's lines: its header, the lines of its content and a blank line. */
  function ItemLines(items: seq<DocItem>): seq<String>
    decreases |items|
  {
    if items == [] then []
    else [ItemHeaderLine(items[0])] + Split(items[0].content, Just('\n')) + [""] + ItemLines(items[1..])
  }

  /** The lines of the rendered document, as the parse splits them. */
  function DocLines(s: DocSession): seq<String> {
    HeaderSections(s) + ItemLines(SortedItems(s.items))
  }

  /** An item section and its lines join to the same text. */
  lemma BlockJoin(h: String, c: String)
    ensures Join([h, c, ""], "\n") == Join([h] + Split(c, Just('\n')) + [""], "\n")
  {
    var pieces := Split(c, Just('\n'));
    JoinSplit(c, '\n');
    assert Join(pieces, "\n") == c;
    JoinAppendOne(pieces, "", "\n");
    assert [h] + pieces + [""] == [h] + (pieces + [""]);
    JoinConcat([h], pieces + [""], "\n");
    assert Join([h, c, ""], "\n") == h + "\n" + Join([c, ""], "\n");
    assert Join([c, ""], "\n") == c + "\n" + "";
  }

  lemma {:induction false} JoinItemLines(prefix: seq<String>, items: seq<DocItem>)
    requires |prefix| >= 1
    ensures Join(prefix + ItemSections(items), "\n") == Join(prefix + ItemLines(items), "\n")
    decreases |items|
  {
    if items != [] {
      var it := items[0];
      var blockS := [ItemHeaderLine(it), it.content, ""];
      var blockL := [ItemHeaderLine(it)] + Split(it.content, Just('\n')) + [""];
      assert prefix + ItemSections(items) == (prefix + blockS) + ItemSections(items[1..]);
      assert prefix + ItemLines(items) == (prefix + blockL) + ItemLines(items[1..]);
      JoinItemLines(prefix + blockL, items[1..]);
      BlockJoin(ItemHeaderLine(it), it.content);
      JoinConcat(prefix, blockS, "\n");
      JoinConcat(prefix, blockL, "\n");
      JoinSameThenSame(prefix + blockS, prefix + blockL, ItemSections(items[1..]), "\n");
    }
  }

  /** Trimmed content: non-empty, neither starting nor ending with whitespace or a line break. */
  predicate TrimmedContent(c: String) {
    c != [] && Trim(c, WhitespacesAndNewlines) == c
  }

  /** The item sections end with the last item's content and a blank line. */
  lemma ItemSectionsEnd(items: seq<DocItem>)
    requires items != []
    ensures var secs := ItemSections(items);
      secs[|secs| - 1] == "" && secs[|secs| - 2] == items[|items| - 1].content
  {
    var n := |items|;
    ItemSectionsSnoc(items, n - 1);
    assert items[..n] == items;
  }

  /** Every rendered item is one of the session's items. */
  lemma SortedItemsFrom(items: seq<DocItem>)
    ensures forall i :: 0 <= i < |SortedItems(items)| ==> SortedItems(items)[i] in items
  {
    SortedItemsOrdered(items);
    var sorted := SortedItems(items);
    forall i | 0 <= i < |sorted| ensures sorted[i] in items {
      assert sorted[i] in multiset(sorted);
    }
  }

  /** The header sections start with '#' on the header line and end with the items heading and a blank line. */
  lemma HeaderSectionsShape(s: DocSession)
    ensures var h := HeaderSections(s);
      && |h| >= 6 && h[0] == HeaderLine(s.title, s.startedAt) && h[0] != [] && h[0][0] == '#'
      && h[|h| - 2] == "## Captured Items" && h[|h| - 1] == ""
  {
    var first := HeaderLine(s.title, s.startedAt);
    assert first == SessionPrefix + (s.title + " - " + FormatMinute(s.startedAt));
  }

  /** The header sections open and close the way framed sections need. */
  lemma HeaderSectionsEnds(s: DocSession)
    ensures var h := HeaderSections(s);
      && |h| >= 2 && h[|h| - 1] == [] && h[0] != [] && !IsNewline(h[0][0])
      && h[|h| - 2] != [] && !IsNewline(h[|h| - 2][|h[|h| - 2]| - 1])
  {
    HeaderSectionsShape(s);
    var t := "## Captured Items";
    assert t[|t| - 1] == 's';
  }

  /** Header sections followed by item sections are framed when the header is and every content is trimmed. */
  lemma SectionsTail(header: seq<String>, items: seq<DocItem>)
    requires FramedSections(header)
    requires forall i :: 0 <= i < |items| ==> TrimmedContent(items[i].content)
    ensures FramedSections(header + ItemSections(items))
  {
    var itemSecs := ItemSections(items);
    if items == [] {
      assert header + itemSecs == header;
    } else {
      ItemSectionsEnd(items);
      var last := items[|items| - 1].content;
      ContentEnds(last);
      ConcatEnds(header, itemSecs);
    }
  }

  /** `render`'s trim takes away only the final blank line, which its final newline puts back. */
  lemma RenderedIsJoin(s: DocSession)
    requires forall it :: it in s.items ==> TrimmedContent(it.content)
    ensures RenderedDocument(s) == Join(HeaderSections(s) + ItemSections(SortedItems(s.items)), "\n")
  {
    SessionSectionsFramed(s);
    TrimJoinedSections(HeaderSections(s) + ItemSections(SortedItems(s.items)));
  }

  lemma SessionSectionsFramed(s: DocSession)
    requires forall it :: it in s.items ==> TrimmedContent(it.content)
    ensures FramedSections(HeaderSections(s) + ItemSections(SortedItems(s.items)))
  {
    HeaderSectionsEnds(s);
    SortedItemsFrom(s.items);
    SectionsTail(HeaderSections(s), SortedItems(s.items));
  }

  lemma ContentEnds(c: String)
    requires TrimmedContent(c)
    ensures !IsNewline(c[0]) && !IsNewline(c[|c| - 1]) && !IsWhitespace(c[0]) && !IsWhitespace(c[|c| - 1])
  {
    assert !InSet(Trim(c, WhitespacesAndNewlines)[0], WhitespacesAndNewlines);
    assert !InSet(Trim(c, WhitespacesAndNewlines)[|c| - 1], WhitespacesAndNewlines);
  }

  // ---------------------------------------------------------------------------
  // What a session must satisfy to be read back
  // ---------------------------------------------------------------------------

  /** The only line break in `c` is the line feed. */
  predicate LineFeedsOnly(c: String) {
    forall k :: 0 <= k < |c| && IsNewline(c[k]) ==> c[k] == '\n'
  }

  /** A content line the parse keeps as content: non-empty, neither an item header nor a metadata line. */
  predicate ContentLine(p: String) {
    p != [] && !StartsItem(p) && !IsMetadataLine(p)
  }

  /** Every line of `c` is a content line. */
  predicate ContentPieces(c: String) {
    forall j :: 0 <= j < |Split(c, Just('\n'))| ==> ContentLine(Split(c, Just('\n'))[j])
  }

  /** An item that reads back: trimmed content of content lines separated by line feeds, on the start day. */
  predicate ItemFits(it: DocItem, startedAt: Date) {
    TrimmedContent(it.content) && LineFeedsOnly(it.content) && ContentPieces(it.content) && SameDay(startedAt, it.timestamp)
  }

  /** A title that reads back: trimmed, non-empty, without '-' or line breaks, other than "Focus Session". */
  predicate TitleFits(t: String) {
    TrimmedContent(t) && '-' !in t && NoneIn(t, Newlines) && t != "Focus Session"
  }

  predicate RoundTrippable(s: DocSession) {
    && TitleFits(s.title)
    && Distinct(TagNames(s.tags)) && (forall i :: 0 <= i < |s.tags| ==> PlainName(s.tags[i].name))
    && (forall it :: it in s.items ==> ItemFits(it, s.startedAt))
  }

  // ---------------------------------------------------------------------------
  // Splitting the rendered document
  // ---------------------------------------------------------------------------

  /** No line of `lines` holds a line break. */
  predicate LinesFree(lines: seq<String>) {
    forall i :: 0 <= i < |lines| ==> NoneIn(lines[i], Newlines)
  }

  lemma LinesFreeConcat(a: seq<String>, b: seq<String>)
    requires LinesFree(a) && LinesFree(b)
    ensures LinesFree(a + b)
  {
    forall i | 0 <= i < |a + b| ensures NoneIn((a + b)[i], Newlines) {
      if i >= |a| {
        assert (a + b)[i] == b[i - |a|];
      }
    }
  }

  /** The lines of content separated by line feeds hold no line break. */
  lemma ContentPiecesFree(c: String)
    requires LineFeedsOnly(c)
    ensures LinesFree(Split(c, Just('\n')))
  {
    var pieces := Split(c, Just('\n'));
    forall j, i | 0 <= j < |pieces| && 0 <= i < |pieces[j]| ensures !IsNewline(pieces[j][i]) {
      SplitPieceFree(c, Just('\n'), j);
      SplitPieceChars(c, Just('\n'), j, i);
      var k :| 0 <= k < |c| && c[k] == pieces[j][i];
    }
  }

  lemma HeaderLineFree(title: String, startedAt: Date)
    requires NoneIn(title, Newlines)
    ensures NoneIn(HeaderLine(title, startedAt), Newlines)
  {
    FormatMinuteShape(startedAt);
    NoneInAppend(SessionPrefix, title, Newlines);
    NoneInAppend(SessionPrefix + title, " - ", Newlines);
    NoneInAppend(SessionPrefix + title + " - ", FormatMinute(startedAt), Newlines);
  }

  lemma TagsLineFree(tags: seq<SessionTag>)
    requires forall i :: 0 <= i < |tags| ==> NoneIn(tags[i].name, Newlines)
    ensures NoneIn(TagsLine(tags), Newlines)
  {
    NoneInJoin(TagNames(tags), ", ", Newlines);
    NoneInAppend("Tags: ", Join(TagNames(tags), ", "), Newlines);
  }

  lemma DateLinesFree(d: Date)
    ensures NoneIn(StartedLine(d), Newlines) && NoneIn(EndedLine(d), Newlines)
  {
    FormatMinuteShape(d);
    NoneInAppend("Started: ", FormatMinute(d), Newlines);
    NoneInAppend("Ended: ", FormatMinute(d), Newlines);
  }

  lemma HeaderSectionsFree(s: DocSession)
    requires NoneIn(s.title, Newlines)
    requires forall i :: 0 <= i < |s.tags| ==> NoneIn(s.tags[i].name, Newlines)
    ensures LinesFree(HeaderSections(s))
  {
    HeaderLineFree(s.title, s.startedAt);
    TagsLineFree(s.tags);
    DateLinesFree(s.startedAt);
    if s.endedAt.Some? {
      DateLinesFree(s.endedAt.value);
    }
  }

  lemma ItemHeaderLineFree(it: DocItem)
    ensures NoneIn(ItemHeaderLine(it), Newlines)
  {
    FormatTimeShape(it.timestamp);
    PrefixFree(it.itemType);
    NoneInAppend(ItemPrefix, FormatTime(it.timestamp), Newlines);
    NoneInAppend(ItemPrefix + FormatTime(it.timestamp), " - ", Newlines);
    NoneInAppend(ItemPrefix + FormatTime(it.timestamp) + " - ", it.itemType.Prefix(), Newlines);
  }

  lemma {:induction false} ItemLinesFree(items: seq<DocItem>)
    requires forall i :: 0 <= i < |items| ==> LineFeedsOnly(items[i].content)
    ensures LinesFree(ItemLines(items))
    decreases |items|
  {
    if items != [] {
      var it := items[0];
      ItemHeaderLineFree(it);
      ContentPiecesFree(it.content);
      ItemLinesFree(items[1..]);
      assert LinesFree([ItemHeaderLine(it)]);
      assert LinesFree([""]);
      LinesFreeConcat([ItemHeaderLine(it)], Split(it.content, Just('\n')));
      LinesFreeConcat([ItemHeaderLine(it)] + Split(it.content, Just('\n')), [""]);
      LinesFreeConcat([ItemHeaderLine(it)] + Split(it.content, Just('\n')) + [""], ItemLines(items[1..]));
    }
  }

  lemma DocLinesFree(s: DocSession)
    requires RoundTrippable(s)
    ensures LinesFree(DocLines(s))
  {
    HeaderSectionsFree(s);
    SortedItemsFrom(s.items);
    ItemLinesFree(SortedItems(s.items));
    LinesFreeConcat(HeaderSections(s), ItemLines(SortedItems(s.items)));
  }

  /** The rendered document splits into the header sections and each item's header, content lines and blank line. */
  lemma RenderedLines(s: DocSession)
    requires RoundTrippable(s)
    ensures DocumentLines(RenderedDocument(s)) == DocLines(s)
  {
    RenderedIsJoin(s);
    JoinItemLines(HeaderSections(s), SortedItems(s.items));
    DocLinesFree(s);
    SplitJoin(DocLines(s), '\n', Newlines);
  }

  // ---------------------------------------------------------------------------
  // The header line
  // ---------------------------------------------------------------------------

  /** The header line reads back as a new-format header whose title keeps the space before " - ". */
  lemma HeaderLineParse(title: String, d: Date)
    requires TitleFits(title)
    ensures ParseNewHeader(HeaderLine(title, d)) == Some(NewHeader(title + " ", FormatMinute(d)))
    ensures NormalizedSessionTitle(title + " ") == title
  {
    assert HeaderLine(title, d) == SessionPrefix + (title + " ") + "- " + FormatMinute(d);
    NewHeaderOf(title + " ", FormatMinute(d));
    TrimTrailingSpace(title);
  }

  // ---------------------------------------------------------------------------
  // The metadata lines
  // ---------------------------------------------------------------------------

  lemma HashLineNotMetadata(line: String)
    requires line != [] && line[0] == '#'
    ensures !IsMetadataLine(line)
  {
  }

  /** The tags line sets the tags named in it, in order. */
  lemma TagsStep(m: Metadata, tags: seq<SessionTag>, tagIds: nat -> Uuid)
    requires Distinct(TagNames(tags)) && forall i :: 0 <= i < |tags| ==> PlainName(tags[i].name)
    ensures MetadataStep(m, TagsLine(tags), tagIds) == m.(tags := TagsNamed(TagNames(tags), tagIds), sawMetadata := true)
  {
    var line := TagsLine(tags);
    assert line[..5] == "Tags:";
    TagsOfTagsLine(tags, tagIds);
  }

  /** Which metadata prefixes a start line has, and what follows "Started:". */
  lemma StartedPrefixes(line: String, fm: String)
    requires line == "Started: " + fm
    ensures !HasPrefix(line, "Tags:") && HasPrefix(line, "Started:") && Drop(line, 8) == " " + fm
  {
    assert line == "Started:" + (" " + fm);
    ConcatSlices("Started:", " " + fm);
    assert line[..5][0] == 'S';
  }

  /** Which metadata prefixes an end line has, and what follows "Ended:". */
  lemma EndedPrefixes(line: String, fm: String)
    requires line == "Ended: " + fm
    ensures !HasPrefix(line, "Tags:") && !HasPrefix(line, "Started:") && HasPrefix(line, "Ended:")
    ensures Drop(line, 6) == " " + fm
  {
    assert line == "Ended:" + (" " + fm);
    ConcatSlices("Ended:", " " + fm);
    assert line[..5][0] == 'E';
    if |line| >= 8 {
      assert line[..8][0] == 'E';
    }
  }

  /** A start line with a formatted date after "Started: " sets that start. */
  lemma StartedStepOf(m: Metadata, line: String, fm: String, d: Date, tagIds: nat -> Uuid)
    requires line == "Started: " + fm
    requires |fm| == 16 && !InSet(fm[0], Whitespaces) && !InSet(fm[15], Whitespaces)
    requires ParseMinute(fm) == Some(d)
    ensures MetadataStep(m, line, tagIds) == m.(startedAt := d, sawMetadata := true)
  {
    StartedPrefixes(line, fm);
    TrimLeadingSpace(fm, Whitespaces);
  }

  /** An end line with a formatted date after "Ended: " sets that end. */
  lemma EndedStepOf(m: Metadata, line: String, fm: String, d: Date, tagIds: nat -> Uuid)
    requires line == "Ended: " + fm
    requires |fm| == 16 && !InSet(fm[0], Whitespaces) && !InSet(fm[15], Whitespaces)
    requires ParseMinute(fm) == Some(d)
    ensures MetadataStep(m, line, tagIds) == m.(endedAt := Some(d), sawMetadata := true)
  {
    EndedPrefixes(line, fm);
    TrimLeadingSpace(fm, Whitespaces);
  }

  /** The start line sets the start it shows. */
  lemma StartedStep(m: Metadata, d: Date, tagIds: nat -> Uuid)
    ensures MetadataStep(m, StartedLine(d), tagIds) == m.(startedAt := d, sawMetadata := true)
  {
    FormatMinuteShape(d);
    ParseFormatMinute(d);
    StartedStepOf(m, StartedLine(d), FormatMinute(d), d, tagIds);
  }

  /** The end line sets the end it shows. */
  lemma EndedStep(m: Metadata, d: Date, tagIds: nat -> Uuid)
    ensures MetadataStep(m, EndedLine(d), tagIds) == m.(endedAt := Some(d), sawMetadata := true)
  {
    FormatMinuteShape(d);
    ParseFormatMinute(d);
    EndedStepOf(m, EndedLine(d), FormatMinute(d), d, tagIds);
  }

  lemma MetadataOfTwo(m: Metadata, a: String, b: String, tagIds: nat -> Uuid)
    ensures MetadataOf(m, [a, b], tagIds) == MetadataStep(MetadataStep(m, a, tagIds), b, tagIds)
  {
    assert [a, b][..1] == [a];
    assert MetadataOf(m, [a], tagIds) == MetadataStep(m, a, tagIds) by {
      assert [a][..0] == [];
    }
  }

  lemma MetadataOfThree(m: Metadata, a: String, b: String, c: String, tagIds: nat -> Uuid)
    ensures MetadataOf(m, [a, b, c], tagIds) == MetadataStep(MetadataOf(m, [a, b], tagIds), c, tagIds)
  {
    assert [a, b, c][..2] == [a, b];
  }

  /** The tags, start and end lines. */
  function MetadataLines(s: DocSession): seq<String> {
    [TagsLine(s.tags), StartedLine(s.startedAt)] + (if s.endedAt.Some? then [EndedLine(s.endedAt.value)] else [])
  }

  /** The scan of the tags, start and end lines recovers the tags by name, the start and the end. */
  lemma MetadataLinesOf(s: DocSession, start: Date, tagIds: nat -> Uuid)
    requires Distinct(TagNames(s.tags)) && forall i :: 0 <= i < |s.tags| ==> PlainName(s.tags[i].name)
    ensures MetadataOf(InitialMetadata(start), MetadataLines(s), tagIds)
      == Metadata(TagsNamed(TagNames(s.tags), tagIds), s.startedAt, s.endedAt, true)
  {
    var m0 := InitialMetadata(start);
    TagsStep(m0, s.tags, tagIds);
    var m1 := MetadataStep(m0, TagsLine(s.tags), tagIds);
    StartedStep(m1, s.startedAt, tagIds);
    MetadataOfTwo(m0, TagsLine(s.tags), StartedLine(s.startedAt), tagIds);
    if s.endedAt.Some? {
      var m2 := MetadataStep(m1, StartedLine(s.startedAt), tagIds);
      EndedStep(m2, s.endedAt.value, tagIds);
      MetadataOfThree(m0, TagsLine(s.tags), StartedLine(s.startedAt), EndedLine(s.endedAt.value), tagIds);
    } else {
      assert MetadataLines(s) == [TagsLine(s.tags), StartedLine(s.startedAt)];
    }
  }

  lemma NoMetadataConcat(a: seq<String>, b: seq<String>)
    requires NoMetadataLines(a) && NoMetadataLines(b)
    ensures NoMetadataLines(a + b)
  {
    forall i | 0 <= i < |a + b| ensures !IsMetadataLine((a + b)[i]) {
      if i >= |a| {
        assert (a + b)[i] == b[i - |a|];
      }
    }
  }

  lemma ItemHeaderLineStarts(it: DocItem)
    ensures var h := ItemHeaderLine(it); h != [] && h[0] == '#' && StartsItem(h)
  {
    var h := ItemHeaderLine(it);
    assert h == ItemPrefix + (FormatTime(it.timestamp) + " - " + it.itemType.Prefix());
  }

  lemma {:induction false} ItemLinesNoMetadata(items: seq<DocItem>)
    requires forall i :: 0 <= i < |items| ==> ContentPieces(items[i].content)
    ensures NoMetadataLines(ItemLines(items))
    decreases |items|
  {
    if items != [] {
      var it := items[0];
      var pieces := Split(it.content, Just('\n'));
      ItemHeaderLineStarts(it);
      HashLineNotMetadata(ItemHeaderLine(it));
      ItemLinesNoMetadata(items[1..]);
      assert NoMetadataLines([ItemHeaderLine(it)]);
      assert NoMetadataLines(pieces) by {
        forall k | 0 <= k < |pieces| ensures !IsMetadataLine(pieces[k]) {
          assert ContentLine(pieces[k]);
        }
      }
      assert NoMetadataLines([""]);
      NoMetadataConcat([ItemHeaderLine(it)], pieces);
      NoMetadataConcat([ItemHeaderLine(it)] + pieces, [""]);
      NoMetadataConcat([ItemHeaderLine(it)] + pieces + [""], ItemLines(items[1..]));
    }
  }

  const ItemsHeading: seq<String> := ["", "## Captured Items", ""]

  lemma ItemsHeadingNoMetadata()
    ensures NoMetadataLines(ItemsHeading)
  {
    HashLineNotMetadata(ItemsHeading[1]);
  }

  /** The lines after the header line: the metadata lines, the items heading and the item lines. */
  lemma DocLinesAfterHeader(s: DocSession)
    ensures DocLines(s)[1..] == MetadataLines(s) + (ItemsHeading + ItemLines(SortedItems(s.items)))
  {
    var e := if s.endedAt.Some? then [EndedLine(s.endedAt.value)] else [];
    ListShape(HeaderLine(s.title, s.startedAt), TagsLine(s.tags), StartedLine(s.startedAt), e,
              ItemLines(SortedItems(s.items)));
  }

  lemma ListShape(h: String, t: String, st: String, e: seq<String>, il: seq<String>)
    ensures (([h, t, st] + e + ItemsHeading) + il)[1..] == ([t, st] + e) + (ItemsHeading + il)
  {
    assert ([h, t, st] + e + ItemsHeading) + il == [h] + (([t, st] + e) + (ItemsHeading + il));
  }

  /** The scan of the lines after the header recovers the tags by name, the start and the end. */
  lemma DocMetadata(s: DocSession, tagIds: nat -> Uuid)
    requires RoundTrippable(s)
    ensures MetadataOf(InitialMetadata(s.startedAt), DocLines(s)[1..], tagIds)
      == Metadata(TagsNamed(TagNames(s.tags), tagIds), s.startedAt, s.endedAt, true)
  {
    var init := InitialMetadata(s.startedAt);
    var sorted := SortedItems(s.items);
    var rest := ItemsHeading + ItemLines(sorted);
    DocLinesAfterHeader(s);
    MetadataOfConcat(init, MetadataLines(s), rest, tagIds);
    MetadataLinesOf(s, s.startedAt, tagIds);
    SortedItemsFrom(s.items);
    ItemLinesNoMetadata(sorted);
    ItemsHeadingNoMetadata();
    NoMetadataConcat(ItemsHeading, ItemLines(sorted));
    MetadataOfNeutral(MetadataOf(init, MetadataLines(s), tagIds), rest, tagIds);
  }

  // ---------------------------------------------------------------------------
  // The item lines
  // ---------------------------------------------------------------------------

  /** A line that does not start with "### " is not an item header. */
  lemma NotItemHeader(line: String)
    requires !StartsItem(line)
    ensures ParseItemHeader(line).None?
  {
    StartsItemIff(line);
  }

  /** Lines none of which is an item header contribute no items. */
  lemma {:induction false} ScanSkipLines(a: seq<String>, b: seq<String>)
    requires forall k :: 0 <= k < |a| ==> !StartsItem(a[k])
    ensures ScannedItems(a + b) == ScannedItems(b)
    decreases |a|
  {
    if a == [] {
      assert a + b == b;
    } else {
      var lines := a + b;
      assert lines[0] == a[0] && lines[1..] == a[1..] + b && lines[0..] == lines;
      NotItemHeader(a[0]);
      ScanSkip(lines, 0);
      ScanSkipLines(a[1..], b);
    }
  }

  lemma HeaderSectionsNoItems(s: DocSession)
    ensures var h := HeaderSections(s); forall k :: 0 <= k < |h| ==> !StartsItem(h[k])
  {
    var h := HeaderSections(s);
    HeaderSectionsShape(s);
    assert h[0] == SessionPrefix + (s.title + " - " + FormatMinute(s.startedAt));
    assert h[0][1] == ' ';
    var t := TagsLine(s.tags);
    assert t == "Tags: " + Join(TagNames(s.tags), ", ");
    assert t[0] == 'T';
    assert StartedLine(s.startedAt)[0] == 'S';
    if s.endedAt.Some? {
      assert EndedLine(s.endedAt.value)[0] == 'E';
    }
  }

  /** The item header line reads back as the item's time and type. */
  lemma ItemHeaderParse(it: DocItem)
    ensures ParseItemHeader(ItemHeaderLine(it)) == Some(ItemHeader(FormatTime(it.timestamp), it.itemType))
  {
    FormatTimeShape(it.timestamp);
    var line := ItemPrefix + FormatTime(it.timestamp) + " - " + it.itemType.Prefix();
    assert line + [] == line;
    ItemHeaderOf(FormatTime(it.timestamp), it.itemType, []);
  }

  /** An item's content lines and its blank line, then a stretch starting at the next item (if any). */
  lemma ContentRunOfBlock(pieces: seq<String>, after: seq<String>)
    requires forall j :: 0 <= j < |pieces| ==> !StartsItem(pieces[j])
    requires after == [] || StartsItem(after[0])
    ensures ContentRun(pieces + [""] + after) == |pieces| + 1
  {
    var lines := pieces + [""] + after;
    forall k | 0 <= k < |pieces| + 1 ensures !StartsItem(lines[k]) {
      if k < |pieces| {
        assert lines[k] == pieces[k];
      } else {
        assert lines[k] == "";
      }
    }
    if after != [] {
      assert lines[|pieces| + 1] == after[0];
    }
    ContentRunIs(lines, |pieces| + 1);
  }

  /** The content lines and the blank line read back as the content. */
  lemma ContentOfBlock(c: String)
    requires TrimmedContent(c) && ContentPieces(c)
    ensures ItemContent(Split(c, Just('\n')) + [""]) == c
  {
    var pieces := Split(c, Just('\n'));
    NonEmptyPiecesSnoc(pieces, "");
    assert forall j :: 0 <= j < |pieces| ==> pieces[j] != [];
    NonEmptyPiecesAll(pieces);
    assert NonEmptyPieces(pieces) + [] == pieces;
    JoinSplit(c, '\n');
  }

  /** The item lines start with an item header. */
  lemma ItemLinesStart(items: seq<DocItem>)
    ensures ItemLines(items) == [] || StartsItem(ItemLines(items)[0])
  {
    if items != [] {
      ItemHeaderLineStarts(items[0]);
    }
  }

  /** The draft the scan reads back for each item: its content, its formatted time and its type. */
  function Drafts(items: seq<DocItem>): (r: seq<Draft>)
    ensures |r| == |items|
  {
    seq(|items|, i requires 0 <= i < |items| => Draft(items[i].content, FormatTime(items[i].timestamp), items[i].itemType))
  }

  predicate BlocksFit(items: seq<DocItem>) {
    forall i :: 0 <= i < |items| ==> TrimmedContent(items[i].content) && ContentPieces(items[i].content)
  }

  /** The scan at an item header whose content run is known and non-empty after reading. */
  lemma ScanBlockOf(lines: seq<String>, h: ItemHeader, n: nat, content: String, after: seq<String>)
    requires lines != [] && ParseItemHeader(lines[0]) == Some(h)
    requires ContentRun(lines[1..]) == n && ItemContent(lines[1..1 + n]) == content && content != []
    requires lines[1 + n..] == after
    ensures ScannedItems(lines) == [Draft(content, h.time, h.itemType)] + ScannedItems(after)
  {
    ScanHeaderAt(lines, h);
  }

  lemma BlockSlices(hd: String, pieces: seq<String>, after: seq<String>)
    ensures var lines := [hd] + pieces + [""] + after; var n := |pieces| + 1;
      && lines[0] == hd && lines[1..] == pieces + [""] + after
      && lines[1..1 + n] == pieces + [""] && lines[1 + n..] == after
  {
  }

  lemma PiecesNotItems(c: String)
    requires ContentPieces(c)
    ensures var pieces := Split(c, Just('\n')); forall j :: 0 <= j < |pieces| ==> !StartsItem(pieces[j])
  {
    var pieces := Split(c, Just('\n'));
    forall j | 0 <= j < |pieces| ensures !StartsItem(pieces[j]) {
      assert ContentLine(pieces[j]);
    }
  }

  /** One item block: its header, content lines and blank line read back as its draft. */
  lemma ScanBlock(it: DocItem, after: seq<String>)
    requires TrimmedContent(it.content) && ContentPieces(it.content)
    requires after == [] || StartsItem(after[0])
    ensures ScannedItems([ItemHeaderLine(it)] + Split(it.content, Just('\n')) + [""] + after)
      == [Draft(it.content, FormatTime(it.timestamp), it.itemType)] + ScannedItems(after)
  {
    var pieces := Split(it.content, Just('\n'));
    var lines := [ItemHeaderLine(it)] + pieces + [""] + after;
    ItemHeaderParse(it);
    BlockSlices(ItemHeaderLine(it), pieces, after);
    PiecesNotItems(it.content);
    ContentRunOfBlock(pieces, after);
    ContentOfBlock(it.content);
    ScanBlockOf(lines, ItemHeader(FormatTime(it.timestamp), it.itemType), |pieces| + 1, it.content, after);
  }

  /** The item lines read back as the items' drafts, in order. */
  lemma {:induction false} ScanItemLines(items: seq<DocItem>)
    requires BlocksFit(items)
    ensures ScannedItems(ItemLines(items)) == Drafts(items)
    decreases |items|
  {
    if items != [] {
      var it := items[0];
      var rest := ItemLines(items[1..]);
      assert BlocksFit(items[1..]) by {
        forall i | 0 <= i < |items[1..]| ensures TrimmedContent(items[1..][i].content) && ContentPieces(items[1..][i].content) {
          assert items[1..][i] == items[i + 1];
        }
      }
      ItemLinesStart(items[1..]);
      ScanBlock(it, rest);
      ScanItemLines(items[1..]);
      DraftsCons(items);
    }
  }

  lemma DraftsCons(items: seq<DocItem>)
    requires items != []
    ensures Drafts(items) == [Draft(items[0].content, FormatTime(items[0].timestamp), items[0].itemType)] + Drafts(items[1..])
  {
    var r := [Draft(items[0].content, FormatTime(items[0].timestamp), items[0].itemType)] + Drafts(items[1..]);
    forall i | 0 <= i < |items| ensures Drafts(items)[i] == r[i] {
      if i > 0 {
        assert items[1..][i - 1] == items[i];
      }
    }
  }

  /** The document's lines read back as the drafts of the items in rendered order. */
  lemma ScanDocLines(s: DocSession)
    requires forall it :: it in s.items ==> TrimmedContent(it.content) && ContentPieces(it.content)
    ensures ScannedItems(DocLines(s)) == Drafts(SortedItems(s.items))
  {
    var sorted := SortedItems(s.items);
    HeaderSectionsNoItems(s);
    ScanSkipLines(HeaderSections(s), ItemLines(sorted));
    SortedItemsFrom(s.items);
    ScanItemLines(sorted);
  }

  // ---------------------------------------------------------------------------
  // Timestamps and ids
  // ---------------------------------------------------------------------------

  /** The items with the ids of the supply, in order. */
  function Reidentified(items: seq<DocItem>, itemIds: nat -> Uuid): (r: seq<DocItem>)
    ensures |r| == |items|
  {
    seq(|items|, i requires 0 <= i < |items| => items[i].(id := itemIds(i)))
  }

  /** Times on the start day read back as the items' own timestamps. */
  lemma StampedDrafts(items: seq<DocItem>, startedAt: Date, itemIds: nat -> Uuid)
    requires forall i :: 0 <= i < |items| ==> SameDay(startedAt, items[i].timestamp)
    ensures Stamped(Drafts(items), FormatDay(startedAt), startedAt, itemIds) == Reidentified(items, itemIds)
  {
    var r := Stamped(Drafts(items), FormatDay(startedAt), startedAt, itemIds);
    forall i | 0 <= i < |items| ensures r[i] == Reidentified(items, itemIds)[i] {
      ParseDayAndTime(startedAt, items[i].timestamp);
    }
  }

  /** The items read back: the session's items in rendered order, with the ids of the supply. */
  lemma ParsedDocItems(s: DocSession, itemIds: nat -> Uuid)
    requires forall it :: it in s.items ==> ItemFits(it, s.startedAt)
    ensures ParsedItems(DocLines(s), s.startedAt, itemIds) == Reidentified(SortedItems(s.items), itemIds)
  {
    var sorted := SortedItems(s.items);
    ScanDocLines(s);
    SortedItemsFrom(s.items);
    StampedDrafts(sorted, s.startedAt, itemIds);
  }

  // ---------------------------------------------------------------------------
  // Render, then parse
  // ---------------------------------------------------------------------------

  /** `parseNew` on lines whose header, date, metadata and items are known. */
  lemma NewFormatParseOf(markdown: String, lines: seq<String>, header: NewHeader, start: Date, meta: Metadata,
                         items: seq<DocItem>, tagIds: nat -> Uuid, itemIds: nat -> Uuid)
    requires DocumentLines(markdown) == lines
    requires lines[0] != [] && ParseNewHeader(lines[0]) == Some(header) && ParseMinute(header.dateText) == Some(start)
    requires MetadataOf(InitialMetadata(start), lines[1..], tagIds) == meta && meta.sawMetadata
    requires ParsedItems(lines, meta.startedAt, itemIds) == items
    ensures ParsedDocument(markdown, tagIds, itemIds)
      == Parsed(DocSession(NormalizedSessionTitle(header.titleText), meta.tags, meta.startedAt, meta.endedAt, items))
  {
    NewFormatParseAfterHeader(markdown, tagIds, itemIds, header, start, meta);
  }

  lemma DocLinesFirst(s: DocSession)
    ensures DocLines(s)[0] == HeaderLine(s.title, s.startedAt) && DocLines(s)[0] != []
  {
    HeaderSectionsShape(s);
  }

  /**
   * Reading back a rendered session gives its title, its tags by name (built-ins
   * as the built-in tags, other names with ids from the supply), its start and
   * end, and its items in rendered order with ids from the supply.
   */
  lemma RenderParseRoundTrip(s: DocSession, tagIds: nat -> Uuid, itemIds: nat -> Uuid)
    requires RoundTrippable(s)
    ensures ParsedDocument(RenderedDocument(s), tagIds, itemIds)
      == Parsed(DocSession(s.title, TagsNamed(TagNames(s.tags), tagIds), s.startedAt, s.endedAt,
                           Reidentified(SortedItems(s.items), itemIds)))
  {
    var header := NewHeader(s.title + " ", FormatMinute(s.startedAt));
    var meta := Metadata(TagsNamed(TagNames(s.tags), tagIds), s.startedAt, s.endedAt, true);
    RenderedLines(s);
    DocLinesFirst(s);
    HeaderLineParse(s.title, s.startedAt);
    ParseFormatMinute(s.startedAt);
    DocMetadata(s, tagIds);
    ParsedDocItems(s, itemIds);
    NewFormatParseOf(RenderedDocument(s), DocLines(s), header, s.startedAt, meta,
                     Reidentified(SortedItems(s.items), itemIds), tagIds, itemIds);
  }

  lemma TagNamesOfNamed(names: seq<String>, tagIds: nat -> Uuid)
    ensures TagNames(TagsNamed(names, tagIds)) == names
  {
  }

  /** The sorted items with fresh ids hold every item once re-identified, in ascending timestamp order. */
  lemma ReidentifiedSorted(items: seq<DocItem>, itemIds: nat -> Uuid)
    ensures var back := Reidentified(SortedItems(items), itemIds);
      && |back| == |items|
      && (forall it :: it in items ==> exists j :: 0 <= j < |back| && back[j] == it.(id := itemIds(j)))
      && (forall i, j :: 0 <= i < j < |back| ==> NotAfter(back[i].timestamp, back[j].timestamp))
  {
    var sorted := SortedItems(items);
    var back := Reidentified(sorted, itemIds);
    SortedItemsOrdered(items);
    assert |sorted| == |multiset(sorted)| == |multiset(items)| == |items|;
    forall it | it in items ensures exists j :: 0 <= j < |back| && back[j] == it.(id := itemIds(j)) {
      assert it in multiset(sorted);
      var j :| 0 <= j < |sorted| && sorted[j] == it;
      assert back[j] == it.(id := itemIds(j));
    }
    forall i, j | 0 <= i < j < |back| ensures NotAfter(back[i].timestamp, back[j].timestamp) {
      assert back[i].timestamp == sorted[i].timestamp && back[j].timestamp == sorted[j].timestamp;
    }
  }

  /**
   * What survives the round trip, field by field: the title, the tag names, the
   * start and end, and every item's content, timestamp and type, with the items
   * in ascending timestamp order.
   */
  lemma RoundTripRecovers(s: DocSession, tagIds: nat -> Uuid, itemIds: nat -> Uuid)
    requires RoundTrippable(s)
    ensures var r := ParsedDocument(RenderedDocument(s), tagIds, itemIds);
      && r.Parsed? && r.session.title == s.title && TagNames(r.session.tags) == TagNames(s.tags)
      && r.session.startedAt == s.startedAt && r.session.endedAt == s.endedAt
      && |r.session.items| == |s.items|
      && (forall it :: it in s.items ==>
            exists j :: 0 <= j < |r.session.items| && r.session.items[j] == it.(id := itemIds(j)))
      && (forall i, j :: 0 <= i < j < |r.session.items| ==>
            NotAfter(r.session.items[i].timestamp, r.session.items[j].timestamp))
  {
    RenderParseRoundTrip(s, tagIds, itemIds);
    TagNamesOfNamed(TagNames(s.tags), tagIds);
    ReidentifiedSorted(s.items, itemIds);
  }

  // ---------------------------------------------------------------------------
  // Legacy documents and failures
  // ---------------------------------------------------------------------------

  /** A header the new-format parser accepts, followed by no metadata line, is not a new-format document. */
  lemma NoMetadataNotNew(markdown: String, tagIds: nat -> Uuid, itemIds: nat -> Uuid)
    requires NoMetadataLines(DocumentLines(markdown)[1..])
    ensures NewFormatParse(markdown, tagIds, itemIds).Invalid?
  {
    var lines := DocumentLines(markdown);
    if lines[0] != [] && ParseNewHeader(lines[0]).Some? {
      var header := ParseNewHeader(lines[0]).value;
      if ParseMinute(header.dateText).Some? {
        var start := ParseMinute(header.dateText).value;
        MetadataOfNeutral(InitialMetadata(start), lines[1..], tagIds);
        NewFormatParseAfterHeader(markdown, tagIds, itemIds, header, start, InitialMetadata(start));
      }
    }
  }

  /**
   * A legacy document, "# Session: <Mode> - <start>" with no metadata line after
   * it, reads as a session titled "Focus" with the mode's built-in tag, that
   * start and no end; the new-format reading (which also accepts that header,
   * with the mode word as its title) fails for want of metadata.
   */
  lemma LegacyDocumentParse(markdown: String, mode: FocusMode, d: Date, tagIds: nat -> Uuid, itemIds: nat -> Uuid)
    requires DocumentLines(markdown)[0] == SessionPrefix + LegacyName(mode) + " - " + FormatMinute(d)
    requires NoMetadataLines(DocumentLines(markdown)[1..])
    ensures ParsedDocument(markdown, tagIds, itemIds)
      == Parsed(DocSession("Focus", [BuiltInTag(mode)], d, None, ParsedItems(DocumentLines(markdown), d, itemIds)))
  {
    NoMetadataNotNew(markdown, tagIds, itemIds);
    LegacyHeaderOf(mode, FormatMinute(d));
    ParseFormatMinute(d);
  }

  /** A document whose first line is blank is refused by both readings. */
  lemma BlankHeaderInvalid(markdown: String, tagIds: nat -> Uuid, itemIds: nat -> Uuid)
    requires DocumentLines(markdown)[0] == []
    ensures ParsedDocument(markdown, tagIds, itemIds) == Invalid("Missing session header")
  {
  }

  /** The empty document is refused for want of a header. */
  lemma EmptyDocumentInvalid(tagIds: nat -> Uuid, itemIds: nat -> Uuid)
    ensures ParsedDocument("", tagIds, itemIds) == Invalid("Missing session header")
  {
    BlankHeaderInvalid("", tagIds, itemIds);
  }

  /**
   * A new-format header with no metadata line after it, whose title is not a
   * mode word, fails both readings with the legacy reader's message.
   */
  lemma NotLegacyWithoutMetadata(markdown: String, tagIds: nat -> Uuid, itemIds: nat -> Uuid)
    requires DocumentLines(markdown)[0] != [] && ParseLegacyHeader(DocumentLines(markdown)[0]).None?
    requires NoMetadataLines(DocumentLines(markdown)[1..])
    ensures ParsedDocument(markdown, tagIds, itemIds) == Invalid("Could not parse legacy session header")
  {
    NoMetadataNotNew(markdown, tagIds, itemIds);
  }
}
