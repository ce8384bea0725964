/** The focus-session domain: records, priorities and the `FocusDefaults` helpers. */
module FocusDomain {
  import opened Wrappers
  import opened Text
  import opened Uuids
  import opened DateTime
  import opened Dedup

  datatype NotePriority = NoPriority | Low | Medium | High {

    /** The label shown for the priority. */
    function Title(): (r: String)
      ensures r != [] && 'A' <= r[0] <= 'Z'
    {
      match this
      case NoPriority => "None"
      case Low => "Low"
      case Medium => "Medium"
      case High => "High"
    }
  }

  /** Distinct priorities have distinct titles. */
  lemma TitleInjective(a: NotePriority, b: NotePriority)
    requires a.Title() == b.Title()
    ensures a == b
  {
  }

  datatype SessionEndReason = Manual | Inactivity | AppClosed {

    function RawValue(): String {
      match this
      case Manual => "manual"
      case Inactivity => "inactivity"
      case AppClosed => "appClosed"
    }
  }

  datatype HotkeyKind = StartSessionHotkey | CaptureHotkey

  datatype HotkeySettings = HotkeySettings(startShortcut: String, captureShortcut: String)

  /** The default shortcuts: command-shift-S starts a session, command-shift-O captures. */
  const DefaultHotkeys: HotkeySettings := HotkeySettings("cmd+shift+s", "cmd+shift+o")

  datatype SessionCategoryRecord = SessionCategoryRecord(id: Uuid, name: String, normalizedName: String)

  datatype FocusNoteRecord = FocusNoteRecord(
    id: Uuid, sessionID: Uuid, text: String, priority: NotePriority, tags: seq<String>,
    createdAt: Date, updatedAt: Date)

  datatype FocusSessionRecord = FocusSessionRecord(
    id: Uuid, name: String, categoryID: Uuid, categoryName: String, startedAt: Date,
    endedAt: Option<Date>, endedReason: Option<SessionEndReason>, notes: seq<FocusNoteRecord>)
  {
    /** A session is active until it has an end time. */
    predicate IsActive() {
      endedAt.None?
    }
  }

  // ---------------------------------------------------------------------------
  // FocusDefaults
  // ---------------------------------------------------------------------------

  const FocusCategoryId: Uuid := Uuid("C8B3B4CC-2928-4A84-9C3B-EB253E9D0001")
  const FocusCategoryName: String := "focus"

  /** The name a session gets when it has none: its start as "yyyy-MM-dd HH:mm". */
  function DefaultSessionName(startedAt: Date): (r: String)
    ensures ParseMinute(r) == Some(startedAt)
  {
    ParseFormatMinute(startedAt);
    FormatMinute(startedAt)
  }

  function NormalizedCategoryName(value: String): String {
    TrimLower(value)
  }

  function NormalizedTag(value: String): String {
    TrimLower(value)
  }

  /** Both normalisers are trim-then-lowercase and therefore idempotent. */
  lemma NormalizersIdempotent(value: String)
    ensures NormalizedCategoryName(NormalizedCategoryName(value)) == NormalizedCategoryName(value)
    ensures NormalizedTag(NormalizedTag(value)) == NormalizedTag(value)
  {
    TrimLowerIdempotent(value);
  }

  /** What `parseTagInput` returns: the first occurrences of the normalised, non-empty comma-separated pieces. */
  function TagInputTags(input: String): seq<String> {
    FirstOccurrences(NormalizeAll(SplitOmittingEmpty(input, ',')))
  }

  /** `parseTagInput`, with its seen-set loop. */
  method ParseTagInput(input: String) returns (values: seq<String>)
    ensures values == TagInputTags(input)
  {
    var components := SplitOmittingEmpty(input, ',');
    var seen: set<String> := {};
    values := [];
    for i := 0 to |components|
      invariant values == FirstOccurrences(NormalizeAll(components[..i]))
      invariant forall v :: v in seen <==> v in values
    {
      var normalized := NormalizedTag(components[i]);
      NormalizeAllSnoc(components, i);
      FirstOccurrencesSnoc(NormalizeAll(components[..i]), normalized);
      if normalized == [] || normalized in seen {
        continue;
      }
      seen := seen + {normalized};
      values := values + [normalized];
    }
    assert components[..|components|] == components;
  }

  /** `x` is the non-empty normalisation of one of the comma-separated pieces of `input`. */
  predicate IsNormalizedPiece(input: String, x: String) {
    x != [] && exists k :: 0 <= k < |Split(input, Just(','))| && NormalizedTag(Split(input, Just(','))[k]) == x
  }

  /** Each parsed tag is the normalisation of some comma-separated piece. */
  lemma TagInputTagOrigin(input: String, i: nat) returns (k: nat)
    requires i < |TagInputTags(input)|
    ensures k < |Split(input, Just(','))| && NormalizedTag(Split(input, Just(','))[k]) == TagInputTags(input)[i]
  {
    var parts := Split(input, Just(','));
    var pieces := NonEmptyPieces(parts);
    var x := TagInputTags(input)[i];
    FirstOccurrencesNormalized(pieces, i);
    var j :| 0 <= j < |pieces| && TrimLower(pieces[j]) == x;
    k := NonEmptyPiecesMember(parts, j);
  }

  lemma TagInputTagsSound(input: String, i: nat)
    requires i < |TagInputTags(input)|
    ensures IsNormalizedPiece(input, TagInputTags(input)[i])
  {
    var k := TagInputTagOrigin(input, i);
  }

  lemma TagInputTagElement(input: String, i: nat)
    requires i < |TagInputTags(input)|
    ensures var t := TagInputTags(input)[i]; t != [] && NormalizedTag(t) == t && ',' !in t
  {
    var k := TagInputTagOrigin(input, i);
    var parts := Split(input, Just(','));
    SplitPieceFree(input, Just(','), k);
    assert ',' !in parts[k];
    TrimNotIn(parts[k], WhitespacesAndNewlines, ',');
    ToLowerKeepsCommaFree(Trim(parts[k], WhitespacesAndNewlines));
    TrimLowerIdempotent(parts[k]);
  }

  lemma TagInputTagsComplete(input: String, k: nat)
    requires k < |Split(input, Just(','))| && NormalizedTag(Split(input, Just(','))[k]) != []
    ensures NormalizedTag(Split(input, Just(','))[k]) in TagInputTags(input)
  {
    var parts := Split(input, Just(','));
    var x := NormalizedTag(parts[k]);
    var keys := NormalizeAll(NonEmptyPieces(parts));
    assert NormalizedTag([]) == [];
    var j := NonEmptyPiecesComplete(parts, k);
    assert keys[j] == x;
  }

  lemma TagInputTagsMember(input: String, x: String)
    ensures x in TagInputTags(input) <==> IsNormalizedPiece(input, x)
  {
    var tags := TagInputTags(input);
    if x in tags {
      var i :| 0 <= i < |tags| && tags[i] == x;
      TagInputTagsSound(input, i);
    }
    if IsNormalizedPiece(input, x) {
      var k :| 0 <= k < |Split(input, Just(','))| && NormalizedTag(Split(input, Just(','))[k]) == x;
      TagInputTagsComplete(input, k);
    }
  }

  /**
   * Every parsed tag is non-empty, already normalised and free of commas; the
   * tags are pairwise distinct, in the order of their first occurrences; and a
   * string is among them exactly when it is the non-empty normalisation of one
   * of the comma-separated pieces.
   */
  lemma TagInputTagsProperties(input: String)
    ensures var tags := TagInputTags(input);
      && Distinct(tags)
      && (forall i :: 0 <= i < |tags| ==> tags[i] != [] && NormalizedTag(tags[i]) == tags[i] && ',' !in tags[i])
      && (forall x :: x in tags <==> IsNormalizedPiece(input, x))
      && (forall i, j :: 0 <= i < j < |tags| ==>
            var keys := NormalizeAll(SplitOmittingEmpty(input, ','));
            FirstIndex(keys, tags[i]) < FirstIndex(keys, tags[j]))
  {
    var tags := TagInputTags(input);
    forall i | 0 <= i < |tags|
      ensures tags[i] != [] && NormalizedTag(tags[i]) == tags[i] && ',' !in tags[i]
    {
      TagInputTagElement(input, i);
    }
    forall x
      ensures x in tags <==> IsNormalizedPiece(input, x)
    {
      TagInputTagsMember(input, x);
    }
    forall i, j | 0 <= i < j < |tags|
      ensures var keys := NormalizeAll(SplitOmittingEmpty(input, ','));
              FirstIndex(keys, tags[i]) < FirstIndex(keys, tags[j])
    {
      FirstOccurrencesOrder(NormalizeAll(SplitOmittingEmpty(input, ',')), i, j);
    }
  }

  /** "<yyyy-MM-dd-HHmm of the start>-<lower-cased uuid>.md", the export file name. */
  function MarkdownFileName(session: FocusSessionRecord): String {
    FormatFileStamp(session.startedAt) + "-" + ToLower(session.id.uuidString) + ".md"
  }

  /**
   * Export file names determine the start minute and the lower-cased session
   * id, and are determined by them.
   */
  lemma MarkdownFileNameInjective(a: FocusSessionRecord, b: FocusSessionRecord)
    ensures MarkdownFileName(a) == MarkdownFileName(b) <==>
      a.startedAt == b.startedAt && ToLower(a.id.uuidString) == ToLower(b.id.uuidString)
  {
    var na, nb := MarkdownFileName(a), MarkdownFileName(b);
    if na == nb {
      assert FormatFileStamp(a.startedAt) == na[..15] && FormatFileStamp(b.startedAt) == nb[..15];
      FileStampInjective(a.startedAt, b.startedAt);
      assert ToLower(a.id.uuidString) == na[16..|na| - 3];
      assert ToLower(b.id.uuidString) == nb[16..|nb| - 3];
    }
  }
}
