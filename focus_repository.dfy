/**
 * `FocusRepository`: the focus-session store over the `sessionCategories`,
 * `focusSessions`, `sessionNotes` and `sessionNoteTags` tables, the name and
 * tag normalisation it applies on every write, and the Markdown export of one
 * session.
 */
module FocusRepository {
  import opened Wrappers
  import opened Text
  import opened Uuids
  import opened DateTime
  import opened Dedup
  import opened Sorting
  import opened FocusDomain

  /** A stored text: non-empty and already trimmed of whitespace and newlines. */
  predicate StoredText(t: String) {
    t != [] && Trim(t, WhitespacesAndNewlines) == t
  }

  lemma StoredTextEnds(t: String)
    requires StoredText(t)
    ensures !IsNewline(t[0]) && !IsNewline(t[|t| - 1])
  {
  }

  // ---------------------------------------------------------------------------
  // Session names
  // ---------------------------------------------------------------------------

  lemma DefaultSessionNameTrimmed(d: Date)
    ensures StoredText(DefaultSessionName(d))
  {
    var m := DefaultSessionName(d);
    FormatMinuteShape(d);
    assert !IsNewline(m[0]) && !IsNewline(m[15]);
    TrimOfTrimmed(m, WhitespacesAndNewlines);
  }

  /**
   * `normalizedSessionName`: the trimmed input, or the start's default name
   * when the input is missing or blank. The name is always a stored text.
   */
  function NormalizedSessionName(input: Option<String>, fallbackDate: Date): (r: String)
    ensures StoredText(r)
    ensures var t := Trim(input.GetOr([]), WhitespacesAndNewlines);
      if t == [] then ParseMinute(r) == Some(fallbackDate) else r == t
  {
    var trimmed := Trim(input.GetOr([]), WhitespacesAndNewlines);
    TrimIdempotent(input.GetOr([]), WhitespacesAndNewlines);
    DefaultSessionNameTrimmed(fallbackDate);
    if trimmed == [] then DefaultSessionName(fallbackDate) else trimmed
  }

  /** Normalising a normalised name leaves it alone, whatever fallback date is given. */
  lemma NormalizedSessionNameIdempotent(input: Option<String>, d: Date, e: Date)
    ensures NormalizedSessionName(Some(NormalizedSessionName(input, d)), e) == NormalizedSessionName(input, d)
  {
  }

  // ---------------------------------------------------------------------------
  // Tags
  // ---------------------------------------------------------------------------

  /** What `normalizedTags` returns: the first occurrences of the non-empty normalised tags. */
  function NormalizedTags(tags: seq<String>): seq<String> {
    FirstOccurrences(NormalizeAll(tags))
  }

  /** `normalizedTags`, with its seen-set loop. */
  method NormalizeTags(tags: seq<String>) returns (values: seq<String>)
    ensures values == NormalizedTags(tags)
  {
    var seen: set<String> := {};
    values := [];
    for i := 0 to |tags|
      invariant values == FirstOccurrences(NormalizeAll(tags[..i]))
      invariant forall v :: v in seen <==> v in values
    {
      var normalized := NormalizedTag(tags[i]);
      NormalizeAllSnoc(tags, i);
      FirstOccurrencesSnoc(NormalizeAll(tags[..i]), normalized);
      if normalized == [] || normalized in seen {
        continue;
      }
      seen := seen + {normalized};
      values := values + [normalized];
    }
    assert tags[..|tags|] == tags;
  }

  /** A note's tag list as stored: distinct, non-empty, normalised names. */
  predicate NormalTagList(ts: seq<String>) {
    Distinct(ts) && forall i :: 0 <= i < |ts| ==> ts[i] != [] && NormalizedTag(ts[i]) == ts[i]
  }

  /**
   * The normalised tags are a normal tag list holding exactly the non-empty
   * normalisations of the input tags, in the order of their first occurrence.
   */
  lemma NormalizedTagsProperties(tags: seq<String>)
    ensures var r := NormalizedTags(tags);
      && NormalTagList(r)
      && (forall x :: x in r <==> x != [] && exists k :: 0 <= k < |tags| && NormalizedTag(tags[k]) == x)
      && (forall i, j :: 0 <= i < j < |r| ==>
            FirstIndex(NormalizeAll(tags), r[i]) < FirstIndex(NormalizeAll(tags), r[j]))
  {
    var r := NormalizedTags(tags);
    var keys := NormalizeAll(tags);
    forall i | 0 <= i < |r|
      ensures NormalizedTag(r[i]) == r[i]
    {
      FirstOccurrencesNormalized(tags, i);
    }
    forall x
      ensures x in r <==> x != [] && exists k :: 0 <= k < |tags| && NormalizedTag(tags[k]) == x
    {
      if x in r {
        var k :| 0 <= k < |keys| && keys[k] == x;
        assert NormalizedTag(tags[k]) == x;
      }
      if x != [] && exists k :: 0 <= k < |tags| && NormalizedTag(tags[k]) == x {
        var k :| 0 <= k < |tags| && NormalizedTag(tags[k]) == x;
        assert keys[k] == x;
      }
    }
    forall i, j | 0 <= i < j < |r|
      ensures FirstIndex(keys, r[i]) < FirstIndex(keys, r[j])
    {
      FirstOccurrencesOrder(keys, i, j);
    }
  }

  lemma NormalizedTagsNormal(tags: seq<String>)
    ensures NormalTagList(NormalizedTags(tags))
  {
    NormalizedTagsProperties(tags);
  }

  /** A normal tag list is its own normalisation. */
  lemma NormalTagListFixed(ts: seq<String>)
    requires NormalTagList(ts)
    ensures NormalizedTags(ts) == ts
  {
    assert NormalizeAll(ts) == ts;
    FirstOccurrencesOfDistinct(ts);
  }

  /** Normalising tags twice is normalising them once. */
  lemma NormalizedTagsIdempotent(tags: seq<String>)
    ensures NormalizedTags(NormalizedTags(tags)) == NormalizedTags(tags)
  {
    NormalizedTagsProperties(tags);
    NormalTagListFixed(NormalizedTags(tags));
  }

  // ---------------------------------------------------------------------------
  // Markdown export (`renderMarkdown`)
  // ---------------------------------------------------------------------------

  /**
   * The separator between a note's time and its priority, as the source spells
   * it: the UTF-8 bytes of a bullet read back as Windows-1252 text.
   */
  const Bullet: String := "\U{00E2}\U{20AC}\U{00A2}"

  /** The session lines that precede the notes. */
  function ExportHeader(s: FocusSessionRecord): seq<String> {
    ["# Session: " + s.name, "Category: " + s.categoryName, "Started: " + FormatMinute(s.startedAt)]
    + EndedLines(s) + ReasonLines(s) + ["", "## Notes", ""]
  }

  function EndedLines(s: FocusSessionRecord): seq<String> {
    if s.endedAt.Some? then ["Ended: " + FormatMinute(s.endedAt.value)] else []
  }

  function ReasonLines(s: FocusSessionRecord): seq<String> {
    if s.endedReason.Some? then ["Ended Reason: " + s.endedReason.value.RawValue()] else []
  }

  function NoteHeading(n: FocusNoteRecord): String {
    "### " + FormatMinute(n.createdAt) + " " + Bullet + " " + n.priority.Title()
  }

  /** A note's lines: its heading, a tags line when it has tags, its text and a blank line. */
  function NoteBlock(n: FocusNoteRecord): seq<String> {
    [NoteHeading(n)] + TagsLines(n) + [n.text, ""]
  }

  function TagsLines(n: FocusNoteRecord): seq<String> {
    if n.tags != [] then ["Tags: " + Join(n.tags, ", ")] else []
  }

  /** Appending lines one at a time builds the same list as appending the block. */
  lemma AppendLines(a: seq<String>, x: String, opt: seq<String>, y: String, z: String)
    ensures a + [x] + opt + [y] + [z] == a + ([x] + opt + [y, z])
  {
  }

  lemma AppendAssoc(a: seq<String>, b: seq<String>, c: seq<String>)
    ensures (a + b) + c == a + (b + c)
  {
  }

  lemma AppendHeader(a: String, b: String, c: String, e: seq<String>, r: seq<String>)
    ensures [] + [a] + [b] + [c] + e + r + [""] + ["## Notes"] + [""] == [a, b, c] + e + r + ["", "## Notes", ""]
  {
  }

  function NoteBlocks(notes: seq<FocusNoteRecord>): seq<String>
    decreases |notes|
  {
    if notes == [] then [] else NoteBlocks(notes[..|notes| - 1]) + NoteBlock(notes[|notes| - 1])
  }

  predicate CreatedLe(a: FocusNoteRecord, b: FocusNoteRecord) {
    NotAfter(a.createdAt, b.createdAt)
  }

  lemma CreatedLeTotalPreorder()
    ensures IsTotalPreorder(CreatedLe)
  {
    forall a: FocusNoteRecord, b: FocusNoteRecord ensures CreatedLe(a, b) || CreatedLe(b, a) {
      BeforeTrichotomy(a.createdAt, b.createdAt);
      if Before(a.createdAt, b.createdAt) && Before(b.createdAt, a.createdAt) {
        BeforeTransitive(a.createdAt, b.createdAt, a.createdAt);
        BeforeIrreflexive(a.createdAt);
      }
    }
    forall a: FocusNoteRecord, b: FocusNoteRecord, c: FocusNoteRecord | CreatedLe(a, b) && CreatedLe(b, c)
      ensures CreatedLe(a, c)
    {
      BeforeTrichotomy(a.createdAt, b.createdAt);
      BeforeTrichotomy(b.createdAt, c.createdAt);
      if Before(c.createdAt, a.createdAt) {
        BeforeTrichotomy(c.createdAt, b.createdAt);
        if Before(a.createdAt, b.createdAt) {
          BeforeTransitive(c.createdAt, a.createdAt, b.createdAt);
        }
      }
    }
  }

  /** The notes in export order. */
  function SortedNotes(notes: seq<FocusNoteRecord>): seq<FocusNoteRecord> {
    SortBy(notes, CreatedLe)
  }

  /** The exported notes are the session's notes, in ascending creation order. */
  lemma SortedNotesOrdered(notes: seq<FocusNoteRecord>)
    ensures multiset(SortedNotes(notes)) == multiset(notes)
    ensures forall i, j :: 0 <= i < j < |SortedNotes(notes)| ==>
      NotAfter(SortedNotes(notes)[i].createdAt, SortedNotes(notes)[j].createdAt)
  {
    CreatedLeTotalPreorder();
    SortBySorted(notes, CreatedLe);
  }

  function ExportLines(s: FocusSessionRecord): seq<String> {
    ExportHeader(s) + NoteBlocks(SortedNotes(s.notes))
  }

  /** The exported document: the lines joined by newlines, trimmed of outer newlines, plus one final newline. */
  function ExportDocument(s: FocusSessionRecord): String {
    Trim(Join(ExportLines(s), "\n"), Newlines) + "\n"
  }

  /** `renderMarkdown`, building the lines one `append` at a time. */
  method RenderMarkdown(s: FocusSessionRecord) returns (markdown: String)
    ensures markdown == ExportDocument(s)
  {
    var lines: seq<String> := [];
    lines := lines + ["# Session: " + s.name];
    lines := lines + ["Category: " + s.categoryName];
    lines := lines + ["Started: " + FormatMinute(s.startedAt)];
    if s.endedAt.Some? {
      lines := lines + ["Ended: " + FormatMinute(s.endedAt.value)];
    }
    assert lines == [] + ["# Session: " + s.name] + ["Category: " + s.categoryName]
                    + ["Started: " + FormatMinute(s.startedAt)] + EndedLines(s);
    if s.endedReason.Some? {
      lines := lines + ["Ended Reason: " + s.endedReason.value.RawValue()];
    }
    assert lines == [] + ["# Session: " + s.name] + ["Category: " + s.categoryName]
                    + ["Started: " + FormatMinute(s.startedAt)] + EndedLines(s) + ReasonLines(s);
    lines := lines + [""];
    lines := lines + ["## Notes"];
    lines := lines + [""];
    AppendHeader("# Session: " + s.name, "Category: " + s.categoryName, "Started: " + FormatMinute(s.startedAt),
                 EndedLines(s), ReasonLines(s));
    var sorted := SortedNotes(s.notes);
    for i := 0 to |sorted|
      invariant lines == ExportHeader(s) + NoteBlocks(sorted[..i])
    {
      var note := sorted[i];
      ghost var before := lines;
      lines := lines + [NoteHeading(note)];
      if note.tags != [] {
        lines := lines + ["Tags: " + Join(note.tags, ", ")];
      }
      assert lines == before + [NoteHeading(note)] + TagsLines(note);
      lines := lines + [note.text];
      lines := lines + [""];
      AppendLines(before, NoteHeading(note), TagsLines(note), note.text, "");
      assert lines == before + NoteBlock(note);
      NoteBlocksSnoc(sorted, i);
      AppendAssoc(ExportHeader(s), NoteBlocks(sorted[..i]), NoteBlock(note));
    }
    assert sorted[..|sorted|] == sorted;
    markdown := Trim(Join(lines, "\n"), Newlines) + "\n";
  }

  lemma NoteBlocksSnoc(notes: seq<FocusNoteRecord>, i: nat)
    requires i < |notes|
    ensures NoteBlocks(notes[..i + 1]) == NoteBlocks(notes[..i]) + NoteBlock(notes[i])
  {
    assert notes[..i + 1][..i] == notes[..i];
  }

  lemma ExportHeaderShape(s: FocusSessionRecord)
    ensures var h := ExportHeader(s);
      |h| >= 6 && h[0] == "# Session: " + s.name && h[|h| - 2] == "## Notes" && h[|h| - 1] == []
  {
  }

  lemma NoteBlocksEnd(notes: seq<FocusNoteRecord>)
    requires notes != []
    ensures var b := NoteBlocks(notes);
      |b| >= 2 && b[|b| - 1] == [] && b[|b| - 2] == notes[|notes| - 1].text
  {
  }

  /** Whatever the session holds, the document starts with the session heading and ends with one newline. */
  lemma ExportDocumentShape(s: FocusSessionRecord)
    ensures var d := ExportDocument(s);
      && HasPrefix(d, "# Session: ")
      && d[|d| - 1] == '\n' && !IsNewline(d[|d| - 2])
  {
    var lines := ExportLines(s);
    ExportHeaderShape(s);
    var j := Join(lines, "\n");
    assert j == lines[0] + "\n" + Join(lines[1..], "\n");
    assert j[..11] == "# Session: " by {
      assert lines[0][..11] == "# Session: ";
    }
    TrimStartOfTrimmed(j, Newlines);
    var t := Trim(j, Newlines);
    TrimEndPrefix(j, Newlines);
    TrimEndKeeps(j, Newlines, 10);
    assert t[..11] == j[..11];
  }

  /**
   * When every note's text is a stored text, the trim takes off only the
   * final blank line's newline: the document is exactly the joined lines.
   */
  lemma ExportIsJoin(s: FocusSessionRecord)
    requires forall i :: 0 <= i < |s.notes| ==> StoredText(s.notes[i].text)
    ensures ExportDocument(s) == Join(ExportLines(s), "\n")
  {
    var h := ExportHeader(s);
    var sorted := SortedNotes(s.notes);
    var b := NoteBlocks(sorted);
    ExportHeaderShape(s);
    assert FramedSections(h);
    if sorted == [] {
      assert h + b == h;
    } else {
      NoteBlocksEnd(sorted);
      var last := sorted[|sorted| - 1];
      SortedNotesOrdered(s.notes);
      assert last in multiset(s.notes);
      StoredTextEnds(last.text);
      ConcatEnds(h, b);
    }
    TrimJoinedSections(h + b);
  }

  // ---------------------------------------------------------------------------
  // Rows and invariants
  // ---------------------------------------------------------------------------

  datatype SessionRow = SessionRow(
    id: Uuid, name: String, categoryID: Uuid, startedAt: Date,
    endedAt: Option<Date>, endedReason: Option<SessionEndReason>)

  /** A `sessionNotes` row together with the names of its `sessionNoteTags` rows. */
  datatype NoteRow = NoteRow(
    id: Uuid, sessionID: Uuid, text: String, priority: NotePriority, tags: seq<String>,
    createdAt: Date, updatedAt: Date)

  /** The row the migration seeds and `ensureFocusCategory` restores. */
  const FocusCategory: SessionCategoryRecord := SessionCategoryRecord(FocusCategoryId, FocusCategoryName, FocusCategoryName)

  lemma FocusCategoryNormal()
    ensures NormalizedCategoryName(FocusCategoryName) == FocusCategoryName
  {
    var f := FocusCategoryName;
    TrimOfTrimmed(f, WhitespacesAndNewlines);
    assert ToLower(f) == f;
    TrimLowerOfNormal(f);
  }

  /** The ids of the categories whose normalised name is `normalized`. */
  function NameOwners(c: map<Uuid, SessionCategoryRecord>, normalized: String): set<Uuid> {
    set k | k in c && c[k].normalizedName == normalized
  }

  /**
   * Categories are keyed by id, have non-empty and pairwise distinct
   * normalised names (the unique index), and include the focus category.
   */
  predicate CategoriesValid(c: map<Uuid, SessionCategoryRecord>) {
    && (forall k :: k in c ==> CategoryRowOk(k, c[k]))
    && UniqueNames(c)
    && FocusCategoryId in c && c[FocusCategoryId] == FocusCategory
  }

  predicate CategoryRowOk(k: Uuid, rec: SessionCategoryRecord) {
    rec.id == k && rec.normalizedName != []
  }

  predicate UniqueNames(c: map<Uuid, SessionCategoryRecord>) {
    forall a, b :: a in c && b in c && c[a].normalizedName == c[b].normalizedName ==> a == b
  }

  /** Sessions are keyed by id, carry a stored name, and reference an existing category. */
  predicate SessionsValid(s: map<Uuid, SessionRow>, c: map<Uuid, SessionCategoryRecord>) {
    forall k :: k in s ==> SessionRowOk(k, s[k]) && s[k].categoryID in c
  }

  predicate SessionRowOk(k: Uuid, row: SessionRow) {
    row.id == k && StoredText(row.name)
  }

  predicate StoredNote(n: NoteRow) {
    StoredText(n.text) && NormalTagList(n.tags)
  }

  /** Notes are keyed by id, are stored notes, and reference an existing session. */
  predicate NotesValid(n: map<Uuid, NoteRow>, s: map<Uuid, SessionRow>) {
    forall k :: k in n ==> n[k].id == k && StoredNote(n[k]) && n[k].sessionID in s
  }

  /**
   * The upsert of `ensureFocusCategory`: the row named "focus" takes the focus
   * id and name. It fails on the primary key when another category holds the
   * focus id.
   */
  function FocusUpsert(c: map<Uuid, SessionCategoryRecord>): Option<map<Uuid, SessionCategoryRecord>> {
    if FocusCategoryId in c && c[FocusCategoryId].normalizedName != FocusCategoryName then None
    else Some((map k | k in c && c[k].normalizedName != FocusCategoryName :: c[k])[FocusCategoryId := FocusCategory])
  }

  /** In a valid store `ensureFocusCategory` succeeds and changes nothing. */
  lemma FocusUpsertOfValid(c: map<Uuid, SessionCategoryRecord>)
    requires CategoriesValid(c)
    ensures FocusUpsert(c) == Some(c)
  {
    var r := (map k | k in c && c[k].normalizedName != FocusCategoryName :: c[k])[FocusCategoryId := FocusCategory];
    OwnersOnly(c, FocusCategoryName, FocusCategoryId);
    assert r == c;
  }

  /** `buildNoteRecord`: the note with its tag names ordered by name. */
  function NoteRecord(n: NoteRow): (r: FocusNoteRecord)
    ensures r.id == n.id && r.sessionID == n.sessionID && r.text == n.text && r.priority == n.priority
    ensures r.createdAt == n.createdAt && r.updatedAt == n.updatedAt
    ensures multiset(r.tags) == multiset(n.tags) && SortedBy(r.tags, LexLe)
  {
    LexLeTotalPreorder();
    SortBySorted(n.tags, LexLe);
    FocusNoteRecord(n.id, n.sessionID, n.text, n.priority, SortBy(n.tags, LexLe), n.createdAt, n.updatedAt)
  }

  lemma LexLeTotalPreorder()
    ensures IsTotalPreorder(LexLe)
  {
    forall a: String, b: String ensures LexLe(a, b) || LexLe(b, a) {
      LexLeTotal(a, b);
    }
    forall a: String, b: String, c: String | LexLe(a, b) && LexLe(b, c) ensures LexLe(a, c) {
      LexLeTransitive(a, b, c);
    }
  }

  /** The session a category deletion moves to the focus category. */
  function Reassigned(row: SessionRow, deleted: Uuid): SessionRow {
    if row.categoryID == deleted then row.(categoryID := FocusCategoryId) else row
  }

  /** The session row `endSession` writes. */
  function EndedRow(row: SessionRow, name: Option<String>, categoryID: Uuid, reason: SessionEndReason, endedAt: Date): (r: SessionRow)
    ensures r.id == row.id && r.startedAt == row.startedAt && r.categoryID == categoryID
    ensures r.endedAt == Some(endedAt) && r.endedReason == Some(reason)
    ensures r.name == NormalizedSessionName(name, row.startedAt)
  {
    row.(name := NormalizedSessionName(name, row.startedAt), categoryID := categoryID,
         endedAt := Some(endedAt), endedReason := Some(reason))
  }

  datatype EndOutcome = Ended(row: SessionRow) | NoSuchSession | UnknownCategory

  // ---------------------------------------------------------------------------
  // Invariant steps
  // ---------------------------------------------------------------------------

  /** Writing a session row keeps the sessions and the notes that reference them valid. */
  lemma SessionWriteValid(c: map<Uuid, SessionCategoryRecord>, s: map<Uuid, SessionRow>, n: map<Uuid, NoteRow>, row: SessionRow)
    requires SessionsValid(s, c) && NotesValid(n, s) && SessionRowOk(row.id, row) && row.categoryID in c
    ensures SessionsValid(s[row.id := row], c) && NotesValid(n, s[row.id := row])
  {
  }

  /** Writing a category row that owns its normalised name keeps everything valid. */
  lemma CategoryWriteValid(c: map<Uuid, SessionCategoryRecord>, s: map<Uuid, SessionRow>, rec: SessionCategoryRecord)
    requires CategoriesValid(c) && SessionsValid(s, c) && rec.id != FocusCategoryId
    requires CategoryRowOk(rec.id, rec) && NameOwners(c, rec.normalizedName) <= {rec.id}
    ensures CategoriesValid(c[rec.id := rec]) && SessionsValid(s, c[rec.id := rec])
  {
    OwnersOnly(c, rec.normalizedName, rec.id);
  }

  /** A valid category map has at most one owner of each normalised name, and the focus category owns "focus". */
  lemma OwnersOnly(c: map<Uuid, SessionCategoryRecord>, normalized: String, id: Uuid)
    requires NameOwners(c, normalized) <= {id} || (CategoriesValid(c) && id in c && c[id].normalizedName == normalized)
    ensures forall k :: k in c && c[k].normalizedName == normalized ==> k == id
  {
    forall k | k in c && c[k].normalizedName == normalized
      ensures k == id
    {
      assert k in NameOwners(c, normalized);
      if !(NameOwners(c, normalized) <= {id}) {
        assert c[k].normalizedName == c[id].normalizedName;
      }
    }
  }

  lemma NoteWriteValid(n: map<Uuid, NoteRow>, s: map<Uuid, SessionRow>, row: NoteRow)
    requires NotesValid(n, s) && StoredNote(row) && row.sessionID in s
    ensures NotesValid(n[row.id := row], s)
  {
  }

  /** The notes that survive deleting session `id`. */
  function NotesOutside(n: map<Uuid, NoteRow>, id: Uuid): (r: map<Uuid, NoteRow>)
    ensures forall k :: k in r <==> k in n && n[k].sessionID != id
    ensures forall k :: k in r ==> r[k] == n[k]
  {
    map k | k in n && n[k].sessionID != id :: n[k]
  }

  lemma DeleteSessionValid(c: map<Uuid, SessionCategoryRecord>, s: map<Uuid, SessionRow>, n: map<Uuid, NoteRow>, id: Uuid)
    requires SessionsValid(s, c) && NotesValid(n, s)
    ensures SessionsValid(s - {id}, c) && NotesValid(NotesOutside(n, id), s - {id})
  {
  }

  /** The sessions after deleting category `id`. */
  function ReassignedAll(s: map<Uuid, SessionRow>, id: Uuid): (r: map<Uuid, SessionRow>)
    ensures r.Keys == s.Keys
    ensures forall k :: k in r ==> r[k] == Reassigned(s[k], id)
  {
    map k | k in s :: Reassigned(s[k], id)
  }

  lemma ReassignedValid(s: map<Uuid, SessionRow>, c: map<Uuid, SessionCategoryRecord>, id: Uuid)
    requires SessionsValid(s, c) && FocusCategoryId in c && id != FocusCategoryId
    ensures SessionsValid(ReassignedAll(s, id), c - {id})
    ensures forall k :: k in ReassignedAll(s, id) ==> ReassignedAll(s, id)[k].categoryID != id
  {
    var r := ReassignedAll(s, id);
    forall k | k in r
      ensures SessionRowOk(k, r[k]) && r[k].categoryID in c - {id} && r[k].categoryID != id
    {
      assert r[k] == Reassigned(s[k], id);
      assert SessionRowOk(k, s[k]);
    }
  }

  lemma DeleteCategoryValid(c: map<Uuid, SessionCategoryRecord>, s: map<Uuid, SessionRow>, n: map<Uuid, NoteRow>, id: Uuid)
    requires CategoriesValid(c) && SessionsValid(s, c) && NotesValid(n, s) && id != FocusCategoryId
    ensures CategoriesValid(c - {id}) && SessionsValid(ReassignedAll(s, id), c - {id})
    ensures NotesValid(n, ReassignedAll(s, id))
  {
    ReassignedValid(s, c, id);
  }

  /** The display and normalised names `addCategory` and `renameCategory` write for `name`. */
  function CategoryNamed(id: Uuid, name: String): (r: SessionCategoryRecord)
    ensures r.id == id && r.name == Trim(name, WhitespacesAndNewlines)
    ensures r.normalizedName == NormalizedCategoryName(name) && r.normalizedName == NormalizedCategoryName(r.name)
  {
    TrimIdempotent(name, WhitespacesAndNewlines);
    SessionCategoryRecord(id, Trim(name, WhitespacesAndNewlines), NormalizedCategoryName(name))
  }

  // ---------------------------------------------------------------------------
  // The store
  // ---------------------------------------------------------------------------

  /** The database behind the live `FocusRepository`, one map per table. */
  class FocusStore {
    var categories: map<Uuid, SessionCategoryRecord>
    var sessions: map<Uuid, SessionRow>
    var notes: map<Uuid, NoteRow>

    predicate Valid()
      reads this
    {
      CategoriesValid(categories) && SessionsValid(sessions, categories) && NotesValid(notes, sessions)
    }

    /** The migrated, empty database: only the focus category. */
    constructor()
      ensures Valid()
      ensures categories == map[FocusCategoryId := FocusCategory] && sessions == map[] && notes == map[]
    {
      categories := map[FocusCategoryId := FocusCategory];
      sessions := map[];
      notes := map[];
    }

    /** `startSession`: ensures the focus category, then inserts an active session named after its start. */
    method StartSession(now: Date, sessionID: Uuid) returns (row: SessionRow)
      requires Valid() && sessionID !in sessions
      modifies this
      ensures Valid()
      ensures row == SessionRow(sessionID, DefaultSessionName(now), FocusCategoryId, now, None, None)
      ensures sessions == old(sessions)[sessionID := row]
      ensures categories == old(categories) && notes == old(notes)
    {
      FocusUpsertOfValid(categories);
      categories := FocusUpsert(categories).value;
      DefaultSessionNameTrimmed(now);
      row := SessionRow(sessionID, DefaultSessionName(now), FocusCategoryId, now, None, None);
      SessionWriteValid(categories, sessions, notes, row);
      sessions := sessions[sessionID := row];
    }

    /**
     * `endSession` (and `endSessionSync`): names the session, files it under
     * the given category or the focus category, and records the end. A missing
     * session changes nothing; a category that does not exist fails the
     * foreign key and changes nothing.
     */
    method EndSession(id: Uuid, name: Option<String>, categoryID: Option<Uuid>, reason: SessionEndReason, endedAt: Date)
      returns (r: EndOutcome)
      requires Valid()
      modifies this
      ensures Valid()
      ensures categories == old(categories) && notes == old(notes)
      ensures id !in old(sessions) ==> r == NoSuchSession && sessions == old(sessions)
      ensures id in old(sessions) && categoryID.GetOr(FocusCategoryId) !in old(categories) ==>
        r == UnknownCategory && sessions == old(sessions)
      ensures id in old(sessions) && categoryID.GetOr(FocusCategoryId) in old(categories) ==>
        && r == Ended(EndedRow(old(sessions)[id], name, categoryID.GetOr(FocusCategoryId), reason, endedAt))
        && sessions == old(sessions)[id := r.row]
    {
      if id !in sessions {
        return NoSuchSession;
      }
      var resolvedCategoryID := categoryID.GetOr(FocusCategoryId);
      if resolvedCategoryID !in categories {
        return UnknownCategory;
      }
      var row := EndedRow(sessions[id], name, resolvedCategoryID, reason, endedAt);
      SessionWriteValid(categories, sessions, notes, row);
      sessions := sessions[id := row];
      r := Ended(row);
    }

    /** `renameSession`: the normalised name, falling back to the start's default name. */
    method RenameSession(id: Uuid, name: String)
      requires Valid()
      modifies this
      ensures Valid()
      ensures categories == old(categories) && notes == old(notes)
      ensures id !in old(sessions) ==> sessions == old(sessions)
      ensures id in old(sessions) ==>
        sessions == old(sessions)[id := old(sessions)[id].(name := NormalizedSessionName(Some(name), old(sessions)[id].startedAt))]
    {
      if id !in sessions {
        return;
      }
      var row := sessions[id].(name := NormalizedSessionName(Some(name), sessions[id].startedAt));
      SessionWriteValid(categories, sessions, notes, row);
      sessions := sessions[id := row];
    }

    /** `deleteSession`: the session goes, and its notes with it (the cascade). */
    method DeleteSession(id: Uuid)
      requires Valid()
      modifies this
      ensures Valid()
      ensures categories == old(categories)
      ensures sessions == old(sessions) - {id}
      ensures notes == NotesOutside(old(notes), id)
      ensures forall k :: k in notes ==> notes[k].sessionID != id
    {
      DeleteSessionValid(categories, sessions, notes, id);
      notes := NotesOutside(notes, id);
      sessions := sessions - {id};
    }

    /**
     * `addCategory`: inserts a category under the trimmed name and its
     * normalisation, unless the normalisation is empty or already taken.
     */
    method AddCategory(name: String, id: Uuid) returns (r: Option<SessionCategoryRecord>)
      requires Valid() && id !in categories
      modifies this
      ensures Valid()
      ensures sessions == old(sessions) && notes == old(notes)
      ensures var normalized := NormalizedCategoryName(name);
        if normalized == [] || NameOwners(old(categories), normalized) != {} then
          r == None && categories == old(categories)
        else
          && r == Some(CategoryNamed(id, name))
          && categories == old(categories)[id := r.value]
    {
      var normalized := NormalizedCategoryName(name);
      if normalized == [] {
        return None;
      }
      if NameOwners(categories, normalized) != {} {
        return None;
      }
      var record := CategoryNamed(id, name);
      CategoryWriteValid(categories, sessions, record);
      categories := categories[id := record];
      r := Some(record);
    }

    /**
     * `renameCategory`: renames a category unless it is the focus category,
     * the new normalisation is empty, or another category already has it.
     */
    method RenameCategory(id: Uuid, name: String)
      requires Valid()
      modifies this
      ensures Valid()
      ensures sessions == old(sessions) && notes == old(notes)
      ensures var normalized := NormalizedCategoryName(name);
        if id == FocusCategoryId || normalized == [] || !(NameOwners(old(categories), normalized) <= {id})
           || id !in old(categories) then
          categories == old(categories)
        else
          categories == old(categories)[id := CategoryNamed(id, name)]
      ensures categories[FocusCategoryId] == FocusCategory
    {
      if id == FocusCategoryId {
        return;
      }
      var normalized := NormalizedCategoryName(name);
      if normalized == [] {
        return;
      }
      if !(NameOwners(categories, normalized) <= {id}) {
        return;
      }
      if id !in categories {
        return;
      }
      var record := CategoryNamed(id, name);
      CategoryWriteValid(categories, sessions, record);
      categories := categories[id := record];
    }

    /**
     * `deleteCategory`: moves the category's sessions to the focus category,
     * then deletes it. The focus category itself is never deleted.
     */
    method DeleteCategory(id: Uuid)
      requires Valid()
      modifies this
      ensures Valid()
      ensures notes == old(notes)
      ensures id == FocusCategoryId ==> categories == old(categories) && sessions == old(sessions)
      ensures id != FocusCategoryId ==>
        && categories == old(categories) - {id}
        && sessions == ReassignedAll(old(sessions), id)
      ensures id != FocusCategoryId ==> forall k :: k in sessions ==> sessions[k].categoryID != id
    {
      if id == FocusCategoryId {
        return;
      }
      var moved := ReassignedAll(sessions, id);
      DeleteCategoryValid(categories, sessions, notes, id);
      sessions := moved;
      categories := categories - {id};
    }

    /**
     * `createNote`: inserts the trimmed text with the normalised tags, unless
     * the text is blank or the session does not exist.
     */
    method CreateNote(sessionID: Uuid, text: String, priority: NotePriority, tags: seq<String>, now: Date, noteID: Uuid)
      returns (r: Option<FocusNoteRecord>)
      requires Valid() && noteID !in notes
      modifies this
      ensures Valid()
      ensures categories == old(categories) && sessions == old(sessions)
      ensures var trimmed := Trim(text, WhitespacesAndNewlines);
        if trimmed == [] || sessionID !in old(sessions) then
          r == None && notes == old(notes)
        else
          && notes == old(notes)[noteID := NoteRow(noteID, sessionID, trimmed, priority, NormalizedTags(tags), now, now)]
          && r == Some(NoteRecord(notes[noteID]))
    {
      var trimmed := Trim(text, WhitespacesAndNewlines);
      if trimmed == [] {
        return None;
      }
      var normalizedTags := NormalizeTags(tags);
      if sessionID !in sessions {
        return None;
      }
      TrimIdempotent(text, WhitespacesAndNewlines);
      NormalizedTagsNormal(tags);
      var row := NoteRow(noteID, sessionID, trimmed, priority, normalizedTags, now, now);
      NoteWriteValid(notes, sessions, row);
      notes := notes[noteID := row];
      r := Some(NoteRecord(row));
    }

    /**
     * `updateNote`: replaces the text, priority and tags and stamps the
     * update, unless the text is blank or the note does not exist.
     */
    method UpdateNote(noteID: Uuid, text: String, priority: NotePriority, tags: seq<String>, now: Date)
      returns (r: Option<FocusNoteRecord>)
      requires Valid()
      modifies this
      ensures Valid()
      ensures categories == old(categories) && sessions == old(sessions)
      ensures var trimmed := Trim(text, WhitespacesAndNewlines);
        if trimmed == [] || noteID !in old(notes) then
          r == None && notes == old(notes)
        else
          && notes == old(notes)[noteID := old(notes)[noteID].(text := trimmed, priority := priority,
                                                                tags := NormalizedTags(tags), updatedAt := now)]
          && r == Some(NoteRecord(notes[noteID]))
    {
      var trimmed := Trim(text, WhitespacesAndNewlines);
      if trimmed == [] {
        return None;
      }
      var normalizedTags := NormalizeTags(tags);
      if noteID !in notes {
        return None;
      }
      TrimIdempotent(text, WhitespacesAndNewlines);
      NormalizedTagsNormal(tags);
      var row := notes[noteID].(text := trimmed, priority := priority, tags := normalizedTags, updatedAt := now);
      NoteWriteValid(notes, sessions, row);
      notes := notes[noteID := row];
      r := Some(NoteRecord(row));
    }

    /** `deleteNote`: the note goes, and its tag rows with it. */
    method DeleteNote(noteID: Uuid)
      requires Valid()
      modifies this
      ensures Valid()
      ensures categories == old(categories) && sessions == old(sessions)
      ensures notes == old(notes) - {noteID}
    {
      notes := notes - {noteID};
    }
  }

  /** A note as the store keeps it exports without losing anything to the final trim. */
  lemma StoredNotesExport(s: FocusSessionRecord, rows: seq<NoteRow>)
    requires |rows| == |s.notes| && forall i :: 0 <= i < |rows| ==> StoredNote(rows[i]) && s.notes[i] == NoteRecord(rows[i])
    ensures ExportDocument(s) == Join(ExportLines(s), "\n")
  {
    ExportIsJoin(s);
  }
}
