/**
 * The session document codec (`SessionMarkdownCodec`): the rendering of a session
 * into its markdown layout, and the parse that reads the current layout or, failing
 * that, the legacy one whose header names a focus mode.
 *
 * The codec builds sessions with a title and tags and items without a mode, so it
 * works on its own records `DocSession` and `DocItem`. Fresh identifiers, which the
 * source draws with `UUID()`, come from the supplies `tagIds` and `itemIds`: the
 * `i`-th tag of a tags line and the `i`-th item of a document get the `i`-th id.
 */
module SessionCodec {
  import opened Wrappers
  import opened Text
  import opened DateTime
  import opened Sorting
  import opened Dedup
  import opened Uuids
  import opened SessionTags
  import opened CapturedItems
  import opened FocusModes
  import FocusDomain

  /** A captured item as the codec reads and writes it. */
  datatype DocItem = DocItem(id: Uuid, content: String, timestamp: Date, itemType: ItemType)

  /** A session as the codec reads and writes it. */
  datatype DocSession = DocSession(title: String, tags: seq<SessionTag>, startedAt: Date,
                                   endedAt: Option<Date>, items: seq<DocItem>)

  /** A parse either gives a session or fails with the source's message. */
  datatype ParseResult = Parsed(session: DocSession) | Invalid(reason: String)

  // ---------------------------------------------------------------------------
  // Rendering
  // ---------------------------------------------------------------------------

  function TagNames(tags: seq<SessionTag>): (r: seq<String>)
    ensures |r| == |tags| && forall i :: 0 <= i < |tags| ==> r[i] == tags[i].name
  {
    seq(|tags|, i requires 0 <= i < |tags| => tags[i].name)
  }

  const SessionPrefix: String := "# Session: "
  const ItemPrefix: String := "### "

  function HeaderLine(title: String, startedAt: Date): String {
    SessionPrefix + title + " - " + FormatMinute(startedAt)
  }

  function TagsLine(tags: seq<SessionTag>): String {
    "Tags: " + Join(TagNames(tags), ", ")
  }

  function StartedLine(startedAt: Date): String {
    "Started: " + FormatMinute(startedAt)
  }

  function EndedLine(endedAt: Date): String {
    "Ended: " + FormatMinute(endedAt)
  }

  /** The sections before the items: header, tags, start, the end if any, and the items heading. */
  function HeaderSections(s: DocSession): seq<String> {
    [HeaderLine(s.title, s.startedAt), TagsLine(s.tags), StartedLine(s.startedAt)]
    + (if s.endedAt.Some? then [EndedLine(s.endedAt.value)] else [])
    + ["", "## Captured Items", ""]
  }

  function ItemHeaderLine(item: DocItem): String {
    ItemPrefix + FormatTime(item.timestamp) + " - " + item.itemType.Prefix()
  }

  /** Each item contributes its header, its content and a blank line. */
  function ItemSections(items: seq<DocItem>): (r: seq<String>)
    ensures |r| == 3 * |items|
    decreases |items|
  {
    if items == [] then []
    else [ItemHeaderLine(items[0]), items[0].content, ""] + ItemSections(items[1..])
  }

  lemma {:induction false} ItemSectionsSnoc(items: seq<DocItem>, i: nat)
    requires i < |items|
    ensures ItemSections(items[..i + 1]) == ItemSections(items[..i]) + [ItemHeaderLine(items[i]), items[i].content, ""]
    decreases i
  {
    if i > 0 {
      ItemSectionsSnoc(items[1..], i - 1);
      assert items[1..][..i] == items[..i + 1][1..];
      assert items[1..][..i - 1] == items[..i][1..];
    }
  }

  lemma RenderStep(header: seq<String>, items: seq<DocItem>, i: nat, sections: seq<String>)
    requires i < |items| && sections == header + ItemSections(items[..i])
    ensures sections + [ItemHeaderLine(items[i]), items[i].content, ""] == header + ItemSections(items[..i + 1])
  {
    ItemSectionsSnoc(items, i);
  }

  /** Items are ordered by timestamp. */
  predicate TimestampLe(a: DocItem, b: DocItem) {
    NotAfter(a.timestamp, b.timestamp)
  }

  lemma TimestampLeTotalPreorder()
    ensures IsTotalPreorder(TimestampLe)
  {
    forall a: DocItem, b: DocItem ensures TimestampLe(a, b) || TimestampLe(b, a) {
      BeforeTrichotomy(a.timestamp, b.timestamp);
      if Before(a.timestamp, b.timestamp) && Before(b.timestamp, a.timestamp) {
        BeforeTransitive(a.timestamp, b.timestamp, a.timestamp);
        BeforeIrreflexive(a.timestamp);
      }
    }
    forall a: DocItem, b: DocItem, c: DocItem | TimestampLe(a, b) && TimestampLe(b, c)
      ensures TimestampLe(a, c)
    {
      BeforeTrichotomy(a.timestamp, b.timestamp);
      BeforeTrichotomy(b.timestamp, c.timestamp);
      if Before(c.timestamp, a.timestamp) {
        BeforeTrichotomy(c.timestamp, b.timestamp);
        if Before(a.timestamp, b.timestamp) {
          BeforeTransitive(c.timestamp, a.timestamp, b.timestamp);
        }
      }
    }
  }

  /** The items in ascending timestamp order. */
  function SortedItems(items: seq<DocItem>): seq<DocItem> {
    SortBy(items, TimestampLe)
  }

  /** The rendered items are the session's items, in ascending timestamp order. */
  lemma SortedItemsOrdered(items: seq<DocItem>)
    ensures multiset(SortedItems(items)) == multiset(items)
    ensures forall i, j :: 0 <= i < j < |SortedItems(items)| ==>
      NotAfter(SortedItems(items)[i].timestamp, SortedItems(items)[j].timestamp)
  {
    TimestampLeTotalPreorder();
    SortBySorted(items, TimestampLe);
  }

  /** What `render` returns: the sections joined by newlines, stripped of outer newlines, plus one newline. */
  function RenderedDocument(s: DocSession): String {
    Trim(Join(HeaderSections(s) + ItemSections(SortedItems(s.items)), "\n"), Newlines) + "\n"
  }

  /** `render`. */
  method Render(s: DocSession) returns (markdown: String)
    ensures markdown == RenderedDocument(s)
  {
    var sections := [HeaderLine(s.title, s.startedAt), TagsLine(s.tags), StartedLine(s.startedAt)];
    if s.endedAt.Some? {
      sections := sections + [EndedLine(s.endedAt.value)];
    }
    sections := sections + [""];
    sections := sections + ["## Captured Items"];
    sections := sections + [""];
    assert sections == HeaderSections(s);
    ghost var header := sections;
    var sorted := SortedItems(s.items);
    for i := 0 to |sorted|
      invariant sections == header + ItemSections(sorted[..i])
    {
      RenderStep(header, sorted, i, sections);
      sections := sections + [ItemHeaderLine(sorted[i]), sorted[i].content, ""];
    }
    assert sorted[..|sorted|] == sorted;
    markdown := Trim(Join(sections, "\n"), Newlines) + "\n";
  }

  // ---------------------------------------------------------------------------
  // Header and item-header parsers
  // ---------------------------------------------------------------------------

  /** The length of the longest prefix of `s` without `c` (`Prefix { $0 != c }`). */
  function RunUntil(s: String, c: char): (n: nat)
    ensures n <= |s| && (n < |s| ==> s[n] == c)
    ensures forall k :: 0 <= k < n ==> s[k] != c
    decreases |s|
  {
    if s == [] || s[0] == c then 0 else 1 + RunUntil(s[1..], c)
  }

  /** A run is determined by where `c` first occurs. */
  lemma {:induction false} RunUntilIs(s: String, c: char, n: nat)
    requires n <= |s| && (n < |s| ==> s[n] == c)
    requires forall k :: 0 <= k < n ==> s[k] != c
    ensures RunUntil(s, c) == n
    decreases n
  {
    if n > 0 {
      RunUntilIs(s[1..], c, n - 1);
    }
  }

  /** Swift's `dropFirst(n)`: nothing is left of a shorter string. */
  function Drop(s: String, n: nat): (r: String)
    ensures n <= |s| ==> r == s[n..]
    ensures n > |s| ==> r == []
  {
    if n <= |s| then s[n..] else []
  }

  datatype NewHeader = NewHeader(titleText: String, dateText: String)

  /**
   * `NewSessionHeaderParser`: "# Session: ", at least one character other than '-',
   * "- " and a non-empty rest. The title is everything before the first '-'.
   */
  function ParseNewHeader(line: String): (r: Option<NewHeader>)
    ensures r.Some? ==>
      && line == SessionPrefix + r.value.titleText + "- " + r.value.dateText
      && r.value.titleText != [] && '-' !in r.value.titleText && r.value.dateText != []
  {
    if !HasPrefix(line, SessionPrefix) then None
    else
      var rest := line[|SessionPrefix|..];
      var n := RunUntil(rest, '-');
      if n == 0 || !HasPrefix(rest[n..], "- ") || |rest| == n + 2 then None
      else
        assert line == SessionPrefix + rest;
        assert rest == rest[..n] + "- " + rest[n + 2..];
        Some(NewHeader(rest[..n], rest[n + 2..]))
  }

  /** Every line of that shape is read as a new-format header. */
  lemma NewHeaderOf(title: String, date: String)
    requires title != [] && '-' !in title && date != []
    ensures ParseNewHeader(SessionPrefix + title + "- " + date) == Some(NewHeader(title, date))
  {
    var line := SessionPrefix + title + "- " + date;
    var rest := title + ("- " + date);
    assert line == SessionPrefix + rest;
    ConcatSlices(SessionPrefix, rest);
    ConcatSlices(title, "- " + date);
    ConcatSlices("- ", date);
    assert rest[|title|] == '-';
    forall k | 0 <= k < |title| ensures rest[k] != '-' {
      assert rest[k] == title[k];
    }
    RunUntilIs(rest, '-', |title|);
  }

  /** The header word of a legacy document for each mode. */
  function LegacyName(mode: FocusMode): (r: String)
    ensures r != [] && '-' !in r
  {
    match mode
    case Coding => "Coding"
    case Researching => "Researching"
    case Email => "Email"
    case Meeting => "Meeting"
  }

  /** The first mode of the `OneOf` whose word starts `s`. */
  function LegacyModeOf(s: String): (r: Option<FocusMode>)
    ensures r.Some? ==> HasPrefix(s, LegacyName(r.value))
    ensures r.None? ==> forall m: FocusMode :: !HasPrefix(s, LegacyName(m))
  {
    if HasPrefix(s, "Coding") then Some(Coding)
    else if HasPrefix(s, "Researching") then Some(Researching)
    else if HasPrefix(s, "Email") then Some(Email)
    else if HasPrefix(s, "Meeting") then Some(Meeting)
    else None
  }

  /** No mode's word starts with another's, so a word names its mode. */
  lemma LegacyModeOfName(mode: FocusMode, rest: String)
    ensures LegacyModeOf(LegacyName(mode) + rest) == Some(mode)
  {
    var s := LegacyName(mode) + rest;
    ConcatSlices(LegacyName(mode), rest);
    var m := LegacyModeOf(s).value;
    assert s[0] == LegacyName(mode)[0] && s[0] == LegacyName(m)[0];
  }

  datatype LegacyHeader = LegacyHeader(mode: FocusMode, dateText: String)

  /** `LegacySessionHeaderParser`: "# Session: ", a mode word, " - " and a non-empty rest. */
  function ParseLegacyHeader(line: String): (r: Option<LegacyHeader>)
    ensures r.Some? ==>
      line == SessionPrefix + LegacyName(r.value.mode) + " - " + r.value.dateText && r.value.dateText != []
  {
    if !HasPrefix(line, SessionPrefix) then None
    else
      var rest := line[|SessionPrefix|..];
      match LegacyModeOf(rest)
      case None => None
      case Some(mode) =>
        var after := rest[|LegacyName(mode)|..];
        if HasPrefix(after, " - ") && |after| > 3 then
          assert line == SessionPrefix + rest;
          assert rest == LegacyName(mode) + after;
          assert after == " - " + after[3..];
          Some(LegacyHeader(mode, after[3..]))
        else None
  }

  /** Every line of that shape is read as a legacy header. */
  lemma LegacyHeaderOf(mode: FocusMode, date: String)
    requires date != []
    ensures ParseLegacyHeader(SessionPrefix + LegacyName(mode) + " - " + date) == Some(LegacyHeader(mode, date))
  {
    var tail := " - " + date;
    var rest := LegacyName(mode) + tail;
    var line := SessionPrefix + rest;
    assert SessionPrefix + LegacyName(mode) + " - " + date == line;
    assert HasPrefix(line, SessionPrefix) && line[|SessionPrefix|..] == rest by {
      ConcatSlices(SessionPrefix, rest);
    }
    assert LegacyModeOf(rest) == Some(mode) && rest[|LegacyName(mode)|..] == tail by {
      LegacyModeOfName(mode, tail);
      ConcatSlices(LegacyName(mode), tail);
    }
    assert HasPrefix(tail, " - ") && |tail| > 3 && tail[3..] == date by {
      ConcatSlices(" - ", date);
    }
    LegacyHeaderFrom(line, rest, mode, tail);
  }

  /** The steps of `ParseLegacyHeader` on a line whose parts are known. */
  lemma LegacyHeaderFrom(line: String, rest: String, mode: FocusMode, tail: String)
    requires HasPrefix(line, SessionPrefix) && line[|SessionPrefix|..] == rest
    requires LegacyModeOf(rest) == Some(mode) && rest[|LegacyName(mode)|..] == tail
    requires HasPrefix(tail, " - ") && |tail| > 3
    ensures ParseLegacyHeader(line) == Some(LegacyHeader(mode, tail[3..]))
  {
  }

  datatype ItemHeader = ItemHeader(time: String, itemType: ItemType)

  /**
   * `MarkdownItemHeaderParser`: "### ", at least one character other than a space,
   * " - " and an item-type prefix. Whatever follows the prefix is ignored.
   */
  function ParseItemHeader(line: String): Option<ItemHeader> {
    if !HasPrefix(line, ItemPrefix) then None
    else
      var rest := line[|ItemPrefix|..];
      var n := RunUntil(rest, ' ');
      if n == 0 || !HasPrefix(rest[n..], " - ") then None
      else
        match ParseItemTypePrefix(rest[n + 3..])
        case None => None
        case Some(t) => Some(ItemHeader(rest[..n], t))
  }

  /** A line read as an item header starts with "### ", the time, " - " and the type's prefix. */
  lemma ItemHeaderSound(line: String)
    requires ParseItemHeader(line).Some?
    ensures var h := ParseItemHeader(line).value;
      && HasPrefix(line, ItemPrefix + h.time + " - " + h.itemType.Prefix())
      && h.time != [] && ' ' !in h.time
  {
    var rest := line[|ItemPrefix|..];
    var n := RunUntil(rest, ' ');
    ItemHeaderShape(line, n, ParseItemHeader(line).value.itemType);
  }

  lemma ItemHeaderShape(line: String, n: nat, t: ItemType)
    requires HasPrefix(line, ItemPrefix) && n + 3 <= |line| - |ItemPrefix|
    requires HasPrefix(line[|ItemPrefix|..][n..], " - ")
    requires HasPrefix(line[|ItemPrefix|..][n + 3..], t.Prefix())
    ensures HasPrefix(line, ItemPrefix + line[|ItemPrefix|..][..n] + " - " + t.Prefix())
  {
    var rest := line[|ItemPrefix|..];
    var p := ItemPrefix + rest[..n] + " - " + t.Prefix();
    assert |p| <= |line|;
    forall k | 0 <= k < |p| ensures line[k] == p[k] {
      if k >= 4 {
        assert line[k] == rest[k - 4];
        if k - 4 >= n + 3 {
          assert rest[k - 4] == rest[n + 3..][k - 4 - n - 3];
        } else if k - 4 >= n {
          assert rest[k - 4] == rest[n..][k - 4 - n];
        }
      }
    }
  }

  /** The parser's steps, when each succeeds. */
  lemma ItemHeaderSteps(line: String, n: nat, t: ItemType)
    requires HasPrefix(line, ItemPrefix) && 0 < n == RunUntil(line[|ItemPrefix|..], ' ')
    requires HasPrefix(line[|ItemPrefix|..][n..], " - ")
    requires ParseItemTypePrefix(line[|ItemPrefix|..][n + 3..]) == Some(t)
    ensures ParseItemHeader(line) == Some(ItemHeader(line[|ItemPrefix|..][..n], t))
  {
  }

  /** The part after "### ": the time runs to the first space, then " - " and the rest follow. */
  lemma ItemHeaderRest(time: String, after: String)
    requires time != [] && ' ' !in time
    ensures var rest := time + (" - " + after);
      && RunUntil(rest, ' ') == |time| && rest[..|time|] == time
      && HasPrefix(rest[|time|..], " - ") && rest[|time| + 3..] == after
  {
    var rest := time + (" - " + after);
    ConcatSlices(time, " - " + after);
    ConcatSlices(" - ", after);
    forall k | 0 <= k < |time| ensures rest[k] != ' ' {
      assert rest[k] == time[k];
    }
    RunUntilIs(rest, ' ', |time|);
  }

  /** Every line of that shape is read as an item header. */
  lemma ItemHeaderOf(time: String, t: ItemType, tail: String)
    requires time != [] && ' ' !in time
    ensures ParseItemHeader(ItemPrefix + time + " - " + t.Prefix() + tail) == Some(ItemHeader(time, t))
  {
    var line := ItemPrefix + time + " - " + t.Prefix() + tail;
    var after := t.Prefix() + tail;
    var rest := time + (" - " + after);
    assert HasPrefix(line, ItemPrefix) && line[|ItemPrefix|..] == rest by {
      assert line == ItemPrefix + rest by {
        assert ItemPrefix + time + " - " + t.Prefix() + tail == ItemPrefix + (time + (" - " + (t.Prefix() + tail)));
      }
      ConcatSlices(ItemPrefix, rest);
    }
    ParseItemTypePrefixOf(t, tail);
    ItemHeaderOfParts(line, time, after, t);
  }

  lemma ItemHeaderOfParts(line: String, time: String, after: String, t: ItemType)
    requires HasPrefix(line, ItemPrefix) && line[|ItemPrefix|..] == time + (" - " + after)
    requires time != [] && ' ' !in time
    requires ParseItemTypePrefix(after) == Some(t)
    ensures ParseItemHeader(line) == Some(ItemHeader(time, t))
  {
    ItemHeaderRest(time, after);
    ItemHeaderSteps(line, |time|, t);
  }

  // ---------------------------------------------------------------------------
  // Titles and tags
  // ---------------------------------------------------------------------------

  /** `normalizedSessionTitle`: the trimmed title, with "Focus Session" and blank titles replaced by "Focus". */
  function NormalizedSessionTitle(title: String): (r: String)
    ensures r != [] && r != "Focus Session"
    ensures Trim(r, WhitespacesAndNewlines) == r
    ensures var t := Trim(title, WhitespacesAndNewlines); r == t || (r == "Focus" && (t == [] || t == "Focus Session"))
  {
    var trimmed := Trim(title, WhitespacesAndNewlines);
    TrimIdempotent(title, WhitespacesAndNewlines);
    if trimmed == "Focus Session" then "Focus"
    else if trimmed == [] then "Focus"
    else trimmed
  }

  /** A trimmed, non-blank title other than "Focus Session" is kept as it is. */
  lemma NormalizedSessionTitleKeeps(title: String)
    requires title != [] && title != "Focus Session" && Trim(title, WhitespacesAndNewlines) == title
    ensures NormalizedSessionTitle(title) == title
  {
  }

  /** Normalising a normalised title changes nothing. */
  lemma NormalizedSessionTitleIdempotent(title: String)
    ensures NormalizedSessionTitle(NormalizedSessionTitle(title)) == NormalizedSessionTitle(title)
  {
    NormalizedSessionTitleKeeps(NormalizedSessionTitle(title));
  }

  /** The tag a name stands for: its built-in, or else a new non-built-in tag with the given id. */
  function TagFor(name: String, id: Uuid): (r: SessionTag)
    ensures r.name == name
    ensures r.isBuiltIn <==> name in BuiltInNames()
    ensures name !in BuiltInNames() ==> r.id == id
  {
    match BuiltInNamed(name)
    case Some(t) =>
      BuiltInsShape();
      t
    case None => SessionTag(id, name, false)
  }

  function TagsNamed(names: seq<String>, tagIds: nat -> Uuid): (r: seq<SessionTag>)
    ensures |r| == |names|
    ensures forall i :: 0 <= i < |names| ==> r[i] == TagFor(names[i], tagIds(i))
  {
    seq(|names|, i requires 0 <= i < |names| => TagFor(names[i], tagIds(i)))
  }

  /** One more piece adds its normalisation to the first occurrences when it is new and non-empty. */
  lemma FirstOccurrencesStep(pieces: seq<String>, i: nat, names: seq<String>)
    requires i < |pieces| && names == FirstOccurrences(NormalizeAll(pieces[..i]))
    ensures var k := TrimLower(pieces[i]);
      FirstOccurrences(NormalizeAll(pieces[..i + 1])) == if k == [] || k in names then names else names + [k]
  {
    NormalizeAllSnoc(pieces, i);
    FirstOccurrencesSnoc(NormalizeAll(pieces[..i]), TrimLower(pieces[i]));
  }

  lemma TagsNamedSnoc(names: seq<String>, name: String, tagIds: nat -> Uuid)
    ensures TagsNamed(names + [name], tagIds) == TagsNamed(names, tagIds) + [TagFor(name, tagIds(|names|))]
  {
  }

  /** The text after "Tags:", trimmed of whitespace. */
  function TagsText(line: String): String {
    Trim(Drop(line, 5), Whitespaces)
  }

  /**
   * What `tagsFromLine` returns: nothing for a blank list, otherwise one tag per
   * distinct non-empty normalised comma-separated name, in first-occurrence order.
   */
  function TagsOfLine(line: String, tagIds: nat -> Uuid): seq<SessionTag> {
    var raw := TagsText(line);
    if raw == [] then [] else TagsNamed(FocusDomain.TagInputTags(raw), tagIds)
  }

  /**
   * The tags read from a line have distinct, non-empty, normalised names, each
   * the normalisation of a comma-separated piece of the text; exactly the built-in
   * names give built-in tags.
   */
  lemma TagsOfLineProperties(line: String, tagIds: nat -> Uuid)
    ensures var tags := TagsOfLine(line, tagIds);
      && Distinct(TagNames(tags))
      && (forall i :: 0 <= i < |tags| ==> tags[i].name != [] && TrimLower(tags[i].name) == tags[i].name)
      && (forall i :: 0 <= i < |tags| ==> FocusDomain.IsNormalizedPiece(TagsText(line), tags[i].name))
      && (forall i :: 0 <= i < |tags| ==> (tags[i].isBuiltIn <==> tags[i].name in BuiltInNames()))
  {
    var raw := TagsText(line);
    var tags := TagsOfLine(line, tagIds);
    if raw != [] {
      FocusDomain.TagInputTagsProperties(raw);
      assert TagNames(tags) == FocusDomain.TagInputTags(raw);
    }
  }

  /** `tagsFromLine`. */
  method TagsFromLine(line: String, tagIds: nat -> Uuid) returns (tags: seq<SessionTag>)
    ensures tags == TagsOfLine(line, tagIds)
  {
    var raw := Trim(Drop(line, 5), Whitespaces);
    if raw == [] {
      return [];
    }
    var components := SplitOmittingEmpty(raw, ',');
    tags := TagsOfComponents(components, tagIds);
  }

  /** The loop of `tagsFromLine`: one tag per distinct non-empty normalised piece, in order. */
  method TagsOfComponents(components: seq<String>, tagIds: nat -> Uuid) returns (tags: seq<SessionTag>)
    ensures tags == TagsNamed(FirstOccurrences(NormalizeAll(components)), tagIds)
  {
    var seen: set<String> := {};
    ghost var names: seq<String> := [];
    tags := [];
    for i := 0 to |components|
      invariant names == FirstOccurrences(NormalizeAll(components[..i]))
      invariant tags == TagsNamed(names, tagIds) && |tags| == |names|
      invariant forall v :: v in seen <==> v in names
    {
      var normalized := TrimLower(components[i]);
      FirstOccurrencesStep(components, i, names);
      if normalized != [] && normalized !in seen {
        seen := seen + {normalized};
        var tag: SessionTag;
        var builtIn := BuiltInNamed(normalized);
        if builtIn.Some? {
          tag := builtIn.value;
        } else {
          tag := SessionTag(tagIds(|tags|), normalized, false);
        }
        assert tag == TagFor(normalized, tagIds(|names|));
        TagsNamedSnoc(names, normalized, tagIds);
        tags := tags + [tag];
        names := names + [normalized];
      }
    }
    assert components[..|components|] == components;
  }

  // ---------------------------------------------------------------------------
  // Metadata
  // ---------------------------------------------------------------------------

  /** What the metadata scan of `parseNew` has gathered so far. */
  datatype Metadata = Metadata(tags: seq<SessionTag>, startedAt: Date, endedAt: Option<Date>, sawMetadata: bool)

  predicate IsMetadataLine(line: String) {
    HasPrefix(line, "Tags:") || HasPrefix(line, "Started:") || HasPrefix(line, "Ended:")
  }

  /**
   * One line of the scan: a tags line replaces the tags; a start or end line
   * replaces that date when its text parses; each of them marks the document as
   * new-format. Other lines change nothing.
   */
  function MetadataStep(m: Metadata, line: String, tagIds: nat -> Uuid): (r: Metadata)
    ensures !IsMetadataLine(line) ==> r == m
    ensures IsMetadataLine(line) ==> r.sawMetadata
  {
    if HasPrefix(line, "Tags:") then
      m.(tags := TagsOfLine(line, tagIds), sawMetadata := true)
    else if HasPrefix(line, "Started:") then
      var parsed := ParseMinute(Trim(Drop(line, 8), Whitespaces));
      m.(startedAt := parsed.GetOr(m.startedAt), sawMetadata := true)
    else if HasPrefix(line, "Ended:") then
      var parsed := ParseMinute(Trim(Drop(line, 6), Whitespaces));
      m.(endedAt := if parsed.Some? then parsed else m.endedAt, sawMetadata := true)
    else m
  }

  /** The scan over `lines`, in order. */
  function MetadataOf(m: Metadata, lines: seq<String>, tagIds: nat -> Uuid): Metadata
    decreases |lines|
  {
    if lines == [] then m
    else MetadataStep(MetadataOf(m, lines[..|lines| - 1], tagIds), lines[|lines| - 1], tagIds)
  }

  /** Scanning two stretches of lines is scanning the first, then the second. */
  lemma {:induction false} MetadataOfConcat(m: Metadata, a: seq<String>, b: seq<String>, tagIds: nat -> Uuid)
    ensures MetadataOf(m, a + b, tagIds) == MetadataOf(MetadataOf(m, a, tagIds), b, tagIds)
    decreases |b|
  {
    if b == [] {
      assert a + b == a;
    } else {
      MetadataOfConcat(m, a, b[..|b| - 1], tagIds);
      assert (a + b)[..|a + b| - 1] == a + b[..|b| - 1];
    }
  }

  predicate NoMetadataLines(lines: seq<String>) {
    forall k :: 0 <= k < |lines| ==> !IsMetadataLine(lines[k])
  }

  /** Lines without metadata leave the scan as it is. */
  lemma {:induction false} MetadataOfNeutral(m: Metadata, lines: seq<String>, tagIds: nat -> Uuid)
    requires NoMetadataLines(lines)
    ensures MetadataOf(m, lines, tagIds) == m
    decreases |lines|
  {
    if lines != [] {
      MetadataOfNeutral(m, lines[..|lines| - 1], tagIds);
      assert !IsMetadataLine(lines[|lines| - 1]);
    }
  }

  /** The last tags line decides the tags: later metadata lines override earlier ones. */
  lemma LastTagsLineWins(m: Metadata, a: seq<String>, line: String, b: seq<String>, tagIds: nat -> Uuid)
    requires HasPrefix(line, "Tags:")
    requires forall k :: 0 <= k < |b| ==> !HasPrefix(b[k], "Tags:")
    ensures MetadataOf(m, a + [line] + b, tagIds).tags == TagsOfLine(line, tagIds)
    ensures MetadataOf(m, a + [line] + b, tagIds).sawMetadata
  {
    MetadataOfConcat(m, a + [line], b, tagIds);
    assert (a + [line])[..|a + [line]| - 1] == a;
    TagsKept(MetadataOf(m, a + [line], tagIds), b, tagIds);
  }

  lemma {:induction false} TagsKept(m: Metadata, b: seq<String>, tagIds: nat -> Uuid)
    requires forall k :: 0 <= k < |b| ==> !HasPrefix(b[k], "Tags:")
    ensures MetadataOf(m, b, tagIds).tags == m.tags
    ensures m.sawMetadata ==> MetadataOf(m, b, tagIds).sawMetadata
    decreases |b|
  {
    if b != [] {
      TagsKept(m, b[..|b| - 1], tagIds);
      assert !HasPrefix(b[|b| - 1], "Tags:");
    }
  }

  // ---------------------------------------------------------------------------
  // Items
  // ---------------------------------------------------------------------------

  /** `hasPrefix("### ")`, spelled out character by character. */
  predicate StartsItem(line: String) {
    |line| >= 4 && line[0] == '#' && line[1] == '#' && line[2] == '#' && line[3] == ' '
  }

  lemma StartsItemIff(line: String)
    ensures StartsItem(line) <==> HasPrefix(line, ItemPrefix)
  {
    if HasPrefix(line, ItemPrefix) {
      assert line[..4][0] == '#' && line[..4][1] == '#' && line[..4][2] == '#' && line[..4][3] == ' ';
    }
    if StartsItem(line) {
      assert line[..4] == ItemPrefix;
    }
  }

  /** The number of lines before the first that starts with "### ". */
  function ContentRun(lines: seq<String>): (n: nat)
    ensures n <= |lines|
    decreases |lines|
  {
    if lines == [] || StartsItem(lines[0]) then 0 else 1 + ContentRun(lines[1..])
  }

  /** A content run is determined by where the next "### " line is. */
  lemma {:induction false} ContentRunIs(lines: seq<String>, n: nat)
    requires n <= |lines| && (n < |lines| ==> StartsItem(lines[n]))
    requires forall k :: 0 <= k < n ==> !StartsItem(lines[k])
    ensures ContentRun(lines) == n
    decreases n
  {
    if n > 0 {
      ContentRunIs(lines[1..], n - 1);
    }
  }

  /** An item's content: its non-empty lines joined by newlines, then trimmed. */
  function ItemContent(block: seq<String>): String {
    Trim(Join(NonEmptyPieces(block), "\n"), WhitespacesAndNewlines)
  }

  /** The start day with the header's time, or the session start if that does not parse. */
  function ItemTimestamp(day: String, time: String, startedAt: Date): Date {
    ParseMinute(day + " " + time).GetOr(startedAt)
  }

  /** An item header and its content, before the item gets its timestamp and id. */
  datatype Draft = Draft(content: String, time: String, itemType: ItemType)

  /**
   * The items of `lines`: each item header starts an item whose content runs to
   * the next line starting with "### "; items without content are dropped; other
   * lines are skipped.
   */
  function ScannedItems(lines: seq<String>): seq<Draft>
    decreases |lines|
  {
    if lines == [] then []
    else
      match ParseItemHeader(lines[0])
      case None => ScannedItems(lines[1..])
      case Some(h) =>
        var n := ContentRun(lines[1..]);
        var content := ItemContent(lines[1..1 + n]);
        var rest := ScannedItems(lines[1 + n..]);
        if content == [] then rest else [Draft(content, h.time, h.itemType)] + rest
  }

  /** Every item read back has non-empty, trimmed content. */
  lemma {:induction false} ScannedItemsContents(lines: seq<String>)
    ensures forall i :: 0 <= i < |ScannedItems(lines)| ==>
      var c := ScannedItems(lines)[i].content;
      c != [] && Trim(c, WhitespacesAndNewlines) == c
    decreases |lines|
  {
    if lines != [] {
      match ParseItemHeader(lines[0])
      case None =>
        ScannedItemsContents(lines[1..]);
      case Some(h) =>
        var n := ContentRun(lines[1..]);
        ScannedItemsContents(lines[1 + n..]);
        TrimIdempotent(Join(NonEmptyPieces(lines[1..1 + n]), "\n"), WhitespacesAndNewlines);
    }
  }

  /** The drafts with their timestamps on `day` and the ids of the supply, in order. */
  function Stamped(drafts: seq<Draft>, day: String, startedAt: Date, itemIds: nat -> Uuid): (r: seq<DocItem>)
    ensures |r| == |drafts|
    ensures forall i :: 0 <= i < |drafts| ==>
      r[i] == DocItem(itemIds(i), drafts[i].content, ItemTimestamp(day, drafts[i].time, startedAt), drafts[i].itemType)
  {
    seq(|drafts|, i requires 0 <= i < |drafts| =>
      DocItem(itemIds(i), drafts[i].content, ItemTimestamp(day, drafts[i].time, startedAt), drafts[i].itemType))
  }

  /** What `parseItems` returns. */
  function ParsedItems(lines: seq<String>, startedAt: Date, itemIds: nat -> Uuid): seq<DocItem> {
    Stamped(ScannedItems(lines), FormatDay(startedAt), startedAt, itemIds)
  }

  lemma {:induction false} NonEmptyPiecesSnoc(parts: seq<String>, x: String)
    ensures NonEmptyPieces(parts + [x]) == NonEmptyPieces(parts) + (if x == [] then [] else [x])
    decreases |parts|
  {
    if parts == [] {
      assert parts + [x] == [x] && [x][1..] == [];
    } else {
      var q := parts + [x];
      assert q[0] == parts[0] && q[1..] == parts[1..] + [x];
      NonEmptyPiecesSnoc(parts[1..], x);
    }
  }

  lemma StampedSnoc(drafts: seq<Draft>, d: Draft, day: String, startedAt: Date, itemIds: nat -> Uuid)
    ensures Stamped(drafts + [d], day, startedAt, itemIds) == Stamped(drafts, day, startedAt, itemIds)
      + [DocItem(itemIds(|drafts|), d.content, ItemTimestamp(day, d.time, startedAt), d.itemType)]
  {
  }

  /** A line that is not an item header is skipped. */
  lemma ScanSkip(lines: seq<String>, index: nat)
    requires index < |lines| && ParseItemHeader(lines[index]).None?
    ensures ScannedItems(lines[index..]) == ScannedItems(lines[index + 1..])
  {
    assert lines[index..][0] == lines[index] && lines[index..][1..] == lines[index + 1..];
  }

  /** An item header followed by its content lines up to `end`, the next "### " line or the end. */
  lemma ScanItem(lines: seq<String>, index: nat, end: nat, h: ItemHeader)
    requires index < end <= |lines| && ParseItemHeader(lines[index]) == Some(h)
    requires forall k :: index + 1 <= k < end ==> !StartsItem(lines[k])
    requires end == |lines| || StartsItem(lines[end])
    ensures var content := ItemContent(lines[index + 1..end]);
      ScannedItems(lines[index..])
      == (if content == [] then [] else [Draft(content, h.time, h.itemType)]) + ScannedItems(lines[end..])
  {
    var tail := lines[index..];
    var n := end - index - 1;
    assert tail[0] == lines[index];
    assert ContentRun(tail[1..]) == n by {
      var after := tail[1..];
      forall k | 0 <= k < n ensures !StartsItem(after[k]) {
        assert after[k] == lines[index + 1 + k];
      }
      assert n < |after| ==> after[n] == lines[end];
      ContentRunIs(after, n);
    }
    assert tail[1..1 + n] == lines[index + 1..end];
    assert tail[1 + n..] == lines[end..];
    ScanHeaderBlock(tail, h, lines[index + 1..end], lines[end..]);
  }

  /** The scan at an item header, with its content block and what follows it named. */
  lemma ScanHeaderBlock(lines: seq<String>, h: ItemHeader, block: seq<String>, after: seq<String>)
    requires lines != [] && ParseItemHeader(lines[0]) == Some(h)
    requires lines[1..1 + ContentRun(lines[1..])] == block && lines[1 + ContentRun(lines[1..])..] == after
    ensures var content := ItemContent(block);
      ScannedItems(lines) == (if content == [] then [] else [Draft(content, h.time, h.itemType)]) + ScannedItems(after)
  {
    ScanHeaderAt(lines, h);
  }

  /** The scan at an item header (one unfolding of `ScannedItems`). */
  lemma ScanHeaderAt(lines: seq<String>, h: ItemHeader)
    requires lines != [] && ParseItemHeader(lines[0]) == Some(h)
    ensures var n := ContentRun(lines[1..]);
      var content := ItemContent(lines[1..1 + n]);
      ScannedItems(lines)
      == (if content == [] then [] else [Draft(content, h.time, h.itemType)]) + ScannedItems(lines[1 + n..])
  {
  }

  lemma NonEmptyPiecesExtend(lines: seq<String>, start: nat, index: nat)
    requires start <= index < |lines|
    ensures NonEmptyPieces(lines[start..index + 1])
      == NonEmptyPieces(lines[start..index]) + (if lines[index] == [] then [] else [lines[index]])
  {
    assert lines[start..index + 1] == lines[start..index] + [lines[index]];
    NonEmptyPiecesSnoc(lines[start..index], lines[index]);
  }

  /**
   * The inner loop of `parseItems`: the non-empty lines from `start` up to the
   * next line starting with "### ", and where that line is.
   */
  method CollectContent(lines: seq<String>, start: nat) returns (contentLines: seq<String>, end: nat)
    requires start <= |lines|
    ensures start <= end <= |lines| && (end == |lines| || StartsItem(lines[end]))
    ensures forall k :: start <= k < end ==> !StartsItem(lines[k])
    ensures contentLines == NonEmptyPieces(lines[start..end])
  {
    contentLines := [];
    end := start;
    while end < |lines| && !StartsItem(lines[end])
      invariant start <= end <= |lines|
      invariant contentLines == NonEmptyPieces(lines[start..end])
      invariant forall k :: start <= k < end ==> !StartsItem(lines[k])
      decreases |lines| - end
    {
      NonEmptyPiecesExtend(lines, start, end);
      if lines[end] != [] {
        contentLines := contentLines + [lines[end]];
      }
      end := end + 1;
    }
  }

  lemma ScanAdvance(drafts: seq<Draft>, found: seq<Draft>, lines: seq<String>, index: nat, end: nat)
    requires index <= end <= |lines|
    requires drafts + ScannedItems(lines[index..]) == ScannedItems(lines)
    requires ScannedItems(lines[index..]) == found + ScannedItems(lines[end..])
    ensures (drafts + found) + ScannedItems(lines[end..]) == ScannedItems(lines)
  {
  }

  /** `parseItems`. */
  method ParseItems(lines: seq<String>, startedAt: Date, itemIds: nat -> Uuid) returns (items: seq<DocItem>)
    ensures items == ParsedItems(lines, startedAt, itemIds)
  {
    items := [];
    ghost var drafts: seq<Draft> := [];
    var dayPrefix := FormatDay(startedAt);
    var index := 0;
    while index < |lines|
      invariant 0 <= index <= |lines|
      invariant items == Stamped(drafts, dayPrefix, startedAt, itemIds)
      invariant drafts + ScannedItems(lines[index..]) == ScannedItems(lines)
      decreases |lines| - index
    {
      var header := ParseItemHeader(lines[index]);
      if header.None? {
        ScanSkip(lines, index);
        assert drafts + ScannedItems(lines[index + 1..]) == ScannedItems(lines);
        index := index + 1;
        continue;
      }
      var contentLines, end := CollectContent(lines, index + 1);
      ScanItem(lines, index, end, header.value);
      var content := Trim(Join(contentLines, "\n"), WhitespacesAndNewlines);
      ghost var draft := Draft(content, header.value.time, header.value.itemType);
      ghost var found := if content == [] then [] else [draft];
      ScanAdvance(drafts, found, lines, index, end);
      index := end;
      if content == [] {
        assert drafts + found == drafts;
        continue;
      }
      var itemDate := ParseMinute(dayPrefix + " " + header.value.time).GetOr(startedAt);
      StampedSnoc(drafts, draft, dayPrefix, startedAt, itemIds);
      items := items + [DocItem(itemIds(|items|), content, itemDate, header.value.itemType)];
      drafts := drafts + [draft];
    }
    assert lines[0..] == lines;
  }

  // ---------------------------------------------------------------------------
  // Parsing
  // ---------------------------------------------------------------------------

  /** `components(separatedBy: .newlines)`. */
  function DocumentLines(markdown: String): (r: seq<String>)
    ensures |r| >= 1
  {
    Split(markdown, Newlines)
  }

  function InitialMetadata(headerStart: Date): Metadata {
    Metadata([], headerStart, None, false)
  }

  /** What `parseNew` returns. */
  function NewFormatParse(markdown: String, tagIds: nat -> Uuid, itemIds: nat -> Uuid): (r: ParseResult)
    ensures r.Invalid? ==> (r.reason in
      {"Missing session header", "Invalid new session header", "Invalid session start date", "Missing new session metadata"})
  {
    var lines := DocumentLines(markdown);
    if lines[0] == [] then Invalid("Missing session header")
    else
      match ParseNewHeader(lines[0])
      case None => Invalid("Invalid new session header")
      case Some(header) =>
        match ParseMinute(header.dateText)
        case None => Invalid("Invalid session start date")
        case Some(headerStart) =>
          var meta := MetadataOf(InitialMetadata(headerStart), lines[1..], tagIds);
          if !meta.sawMetadata then Invalid("Missing new session metadata")
          else
            Parsed(DocSession(NormalizedSessionTitle(header.titleText), meta.tags, meta.startedAt, meta.endedAt,
                              ParsedItems(lines, meta.startedAt, itemIds)))
  }

  /** The built-in tag of each mode (`FocusMode.builtInTag`). */
  function BuiltInTag(mode: FocusMode): (r: SessionTag)
    ensures r in BuiltIns && r.isBuiltIn && r.name == mode.RawValue()
  {
    BuiltInsShape();
    assert BuiltInNames()[0] == BuiltIns[0].name;
    assert BuiltInNames()[1] == BuiltIns[1].name;
    assert BuiltInNames()[2] == BuiltIns[2].name;
    assert BuiltInNames()[3] == BuiltIns[3].name;
    match mode
    case Coding => BuiltIns[0]
    case Researching => BuiltIns[1]
    case Email => BuiltIns[2]
    case Meeting => BuiltIns[3]
  }

  /** What `parseLegacy` returns. */
  function LegacyFormatParse(markdown: String, itemIds: nat -> Uuid): (r: ParseResult)
    ensures r.Invalid? ==> (r.reason in
      {"Missing session header", "Could not parse legacy session header", "Invalid session date"})
    ensures r.Parsed? ==>
      r.session.title == "Focus" && |r.session.tags| == 1 && r.session.tags[0].isBuiltIn && r.session.endedAt.None?
  {
    var lines := DocumentLines(markdown);
    if lines[0] == [] then Invalid("Missing session header")
    else
      match ParseLegacyHeader(lines[0])
      case None => Invalid("Could not parse legacy session header")
      case Some(header) =>
        match ParseMinute(header.dateText)
        case None => Invalid("Invalid session date")
        case Some(startedAt) =>
          Parsed(DocSession("Focus", [BuiltInTag(header.mode)], startedAt, None, ParsedItems(lines, startedAt, itemIds)))
  }

  /** What `parse` returns: the new-format reading if it succeeds, else the legacy one. */
  function ParsedDocument(markdown: String, tagIds: nat -> Uuid, itemIds: nat -> Uuid): (r: ParseResult)
    ensures r.Invalid? <==> NewFormatParse(markdown, tagIds, itemIds).Invalid? && LegacyFormatParse(markdown, itemIds).Invalid?
    ensures r.Invalid? ==> r == LegacyFormatParse(markdown, itemIds)
  {
    var r := NewFormatParse(markdown, tagIds, itemIds);
    if r.Parsed? then r else LegacyFormatParse(markdown, itemIds)
  }

  /** One step of the scan over the lines after the first. */
  lemma MetadataPrefixStep(m: Metadata, lines: seq<String>, i: nat, tagIds: nat -> Uuid)
    requires 1 <= i < |lines|
    ensures MetadataOf(m, lines[1..i + 1], tagIds) == MetadataStep(MetadataOf(m, lines[1..i], tagIds), lines[i], tagIds)
  {
    assert lines[1..i + 1][..i - 1] == lines[1..i];
    assert lines[1..i + 1][i - 1] == lines[i];
  }

  /** `parseNew` after a well-formed header: the scan decides between a session and the missing-metadata error. */
  lemma NewFormatParseAfterHeader(markdown: String, tagIds: nat -> Uuid, itemIds: nat -> Uuid,
                                  header: NewHeader, headerStart: Date, meta: Metadata)
    requires DocumentLines(markdown)[0] != [] && ParseNewHeader(DocumentLines(markdown)[0]) == Some(header)
    requires ParseMinute(header.dateText) == Some(headerStart)
    requires meta == MetadataOf(InitialMetadata(headerStart), DocumentLines(markdown)[1..], tagIds)
    ensures NewFormatParse(markdown, tagIds, itemIds)
      == if !meta.sawMetadata then Invalid("Missing new session metadata")
         else Parsed(DocSession(NormalizedSessionTitle(header.titleText), meta.tags, meta.startedAt, meta.endedAt,
                                ParsedItems(DocumentLines(markdown), meta.startedAt, itemIds)))
  {
  }

  /** The metadata loop of `parseNew` over the lines after the header. */
  method ScanMetadata(lines: seq<String>, headerStart: Date, tagIds: nat -> Uuid) returns (meta: Metadata)
    requires |lines| >= 1
    ensures meta == MetadataOf(InitialMetadata(headerStart), lines[1..|lines|], tagIds)
  {
    ghost var initial := InitialMetadata(headerStart);
    var tags: seq<SessionTag> := [];
    var startedAt := headerStart;
    var endedAt: Option<Date> := None;
    var sawNewFormatMetadata := false;
    for i := 1 to |lines|
      invariant Metadata(tags, startedAt, endedAt, sawNewFormatMetadata) == MetadataOf(initial, lines[1..i], tagIds)
    {
      MetadataPrefixStep(initial, lines, i, tagIds);
      var line := lines[i];
      if HasPrefix(line, "Tags:") {
        sawNewFormatMetadata := true;
        tags := TagsFromLine(line, tagIds);
      } else if HasPrefix(line, "Started:") {
        sawNewFormatMetadata := true;
        var parsed := ParseMinute(Trim(Drop(line, 8), Whitespaces));
        if parsed.Some? {
          startedAt := parsed.value;
        }
      } else if HasPrefix(line, "Ended:") {
        sawNewFormatMetadata := true;
        var parsed := ParseMinute(Trim(Drop(line, 6), Whitespaces));
        if parsed.Some? {
          endedAt := parsed;
        }
      }
    }
    meta := Metadata(tags, startedAt, endedAt, sawNewFormatMetadata);
  }

  /** `parseNew`. */
  method ParseNew(markdown: String, tagIds: nat -> Uuid, itemIds: nat -> Uuid) returns (r: ParseResult)
    ensures r == NewFormatParse(markdown, tagIds, itemIds)
  {
    var lines := Split(markdown, Newlines);
    if lines[0] == [] {
      return Invalid("Missing session header");
    }
    var header := ParseNewHeader(lines[0]);
    if header.None? {
      return Invalid("Invalid new session header");
    }
    var headerStart := ParseMinute(header.value.dateText);
    if headerStart.None? {
      return Invalid("Invalid session start date");
    }
    var meta := ScanMetadata(lines, headerStart.value, tagIds);
    assert lines[1..|lines|] == lines[1..];
    NewFormatParseAfterHeader(markdown, tagIds, itemIds, header.value, headerStart.value, meta);
    if !meta.sawMetadata {
      return Invalid("Missing new session metadata");
    }
    var items := ParseItems(lines, meta.startedAt, itemIds);
    r := Parsed(DocSession(NormalizedSessionTitle(header.value.titleText), meta.tags, meta.startedAt, meta.endedAt, items));
  }

  /** `parseLegacy`. */
  method ParseLegacy(markdown: String, itemIds: nat -> Uuid) returns (r: ParseResult)
    ensures r == LegacyFormatParse(markdown, itemIds)
  {
    var lines := Split(markdown, Newlines);
    if lines[0] == [] {
      return Invalid("Missing session header");
    }
    var header := ParseLegacyHeader(lines[0]);
    if header.None? {
      return Invalid("Could not parse legacy session header");
    }
    var startedAt := ParseMinute(header.value.dateText);
    if startedAt.None? {
      return Invalid("Invalid session date");
    }
    var items := ParseItems(lines, startedAt.value, itemIds);
    r := Parsed(DocSession("Focus", [BuiltInTag(header.value.mode)], startedAt.value, None, items));
  }

  /** `parse`. */
  method Parse(markdown: String, tagIds: nat -> Uuid, itemIds: nat -> Uuid) returns (r: ParseResult)
    ensures r == ParsedDocument(markdown, tagIds, itemIds)
  {
    r := ParseNew(markdown, tagIds, itemIds);
    if r.Parsed? {
      return;
    }
    r := ParseLegacy(markdown, itemIds);
  }
}
