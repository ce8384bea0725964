/**
 * The application reducer (`AppFeature`): its state and the synchronous part of
 * every action. The bodies of `.run` effects talk to the repository, the hotkey
 * manager, the clock and the exporter; they are opaque here and appear only as a
 * `Job` naming the work and carrying the values it was given.
 */
module AppFeature {
  import opened Wrappers
  import opened Text
  import opened Uuids
  import opened DateTime
  import opened Sorting
  import opened Filtering
  import opened FocusDomain
  import opened Dedup
  import Effects
  import EditingCore

  /** Swift's 64-bit `Int`. */
  newtype Int64 = n: int | -0x8000_0000_0000_0000 <= n <= 0x7FFF_FFFF_FFFF_FFFF

  /** `&+= 1`: adds one, wrapping from the largest `Int` to the smallest. */
  function WrappingIncrement(n: Int64): (r: Int64)
    ensures n as int < IntMax ==> r as int == n as int + 1
    ensures n as int == IntMax ==> r as int == IntMin
  {
    if n == 0x7FFF_FFFF_FFFF_FFFF then -0x8000_0000_0000_0000 else n + 1
  }

  datatype WindowDestination = SessionWindow | CaptureWindow | EndSessionWindow

  /** Removing the three destinations closes every window. */
  lemma AllWindowsClosed(windows: set<WindowDestination>)
    ensures windows - {EndSessionWindow, CaptureWindow, SessionWindow} == {}
  {
    forall w | w in windows ensures w in {EndSessionWindow, CaptureWindow, SessionWindow} {
      match w
      case SessionWindow =>
      case CaptureWindow =>
      case EndSessionWindow =>
    }
  }

  /** The quick-capture form. */
  datatype CaptureDraft = CaptureDraft(text: String, tags: String, priority: NotePriority, editingNoteID: Option<Uuid>)

  /** A fresh capture form: empty text and tags, no priority, not editing a note. */
  const EmptyCaptureDraft: CaptureDraft := CaptureDraft([], [], NoPriority, None)

  /** The end-session prompt. */
  datatype EndSessionDraft = EndSessionDraft(
    id: Uuid, name: String, selectedCategoryID: Uuid, categories: seq<SessionCategoryRecord>)

  /** A note of the active session as the session window edits it. */
  datatype NoteDraft = NoteDraft(id: Uuid, text: String, tags: seq<String>, priority: NotePriority, createdAt: Date)

  datatype SettingsState = SettingsState(
    sessions: seq<FocusSessionRecord>, categories: seq<SessionCategoryRecord>,
    startShortcut: String, captureShortcut: String, statusMessage: Option<String>)

  /** The settings screen before anything is loaded: the default shortcuts and no message. */
  const InitialSettings: SettingsState :=
    SettingsState([], [], DefaultHotkeys.startShortcut, DefaultHotkeys.captureShortcut, None)

  datatype CancelID = InactivityMonitor | HotkeyRegistration

  /** The actions the reducer sends itself with `.send`. */
  datatype FollowUp =
    | RegisterHotkeys(settings: HotkeySettings)
    | SettingsRefreshTapped
    | OpenSessionTapped
    | StartSessionTapped
    | CaptureTapped
    | AutoEndSession

  /** The arguments of an `endSession` call on the repository. */
  datatype EndRequest = EndRequest(sessionID: Uuid, name: Option<String>, categoryID: Option<Uuid>, reason: SessionEndReason)

  /** The work of a `.run` effect, with the values it captured. */
  datatype Job =
    | LoadActiveSession
    | LoadCategories
    | ListenForHotkeys(settings: HotkeySettings)
    | StartSession
    | StartCaptureSession
    | SaveCapture(sessionID: Uuid, editingNoteID: Option<Uuid>, text: String, priority: NotePriority, tags: seq<String>)
    | RenameActiveSession(sessionID: Uuid, name: String)
    | ChangeSessionCategory(sessionID: Uuid, categoryID: Uuid)
    | UpdateNote(noteID: Uuid, text: String, priority: NotePriority, tags: seq<String>)
    | DeleteNote(noteID: Uuid)
    | EndSession(request: EndRequest)
    | LoadSettingsData
    | AddCategory(name: String, colorHex: String)
    | RenameCategory(categoryID: Uuid, name: String, colorHex: String)
    | DeleteCategory(categoryID: Uuid)
    | RenameSession(sessionID: Uuid, name: String)
    | DeleteSession(sessionID: Uuid)
    | Export(sessionIDs: seq<Uuid>, directory: String)
    | InactivityTimer

  /** What an action returns besides the new state (`Effect<Action>`). */
  datatype AppEffect =
    | NoEffect
    | Send(action: FollowUp)
    | Run(job: Job)
    | RunCancellable(job: Job, id: CancelID)
    | Cancel(id: CancelID)
    | Merge(effects: seq<AppEffect>)

  /** Idle time, in seconds, after which the active session ends itself: eight hours. */
  const InactivityLimit: real := 8.0 * 60.0 * 60.0

  // ---------------------------------------------------------------------------
  // Pure parts of the reducer
  // ---------------------------------------------------------------------------

  /** The position of the draft with id `id` (`noteDrafts[id:]`), or nothing. */
  function FindDraft(drafts: seq<NoteDraft>, id: Uuid): (r: Option<nat>)
    ensures r.None? <==> forall k :: 0 <= k < |drafts| ==> drafts[k].id != id
    ensures r.Some? ==> r.value < |drafts| && drafts[r.value].id == id
    ensures r.Some? ==> forall k :: 0 <= k < r.value ==> drafts[k].id != id
  {
    if drafts == [] then None
    else if drafts[0].id == id then Some(0)
    else match FindDraft(drafts[1..], id)
      case None => None
      case Some(k) => Some(k + 1)
  }

  /** Whether some category has id `id` (`contains(where:)`). */
  function HasCategory(categories: seq<SessionCategoryRecord>, id: Uuid): (r: bool)
    ensures r <==> exists k :: 0 <= k < |categories| && categories[k].id == id
  {
    if categories == [] then false
    else categories[0].id == id || HasCategory(categories[1..], id)
  }

  /** The capture form filled from a note draft for editing that note. */
  function EditingDraft(d: NoteDraft): (r: CaptureDraft)
    ensures r.text == d.text && r.priority == d.priority && r.editingNoteID == Some(d.id)
    ensures r.tags == Join(d.tags, ", ")
  {
    CaptureDraft(d.text, Join(d.tags, ", "), d.priority, Some(d.id))
  }

  /** The pieces between the commas of tags joined by ", ", past the first: each behind a space. */
  function Spaced(tags: seq<String>): (r: seq<String>)
    ensures |r| == |tags|
    ensures forall i :: 0 <= i < |tags| ==> r[i] == [' '] + tags[i]
  {
    seq(|tags|, i requires 0 <= i < |tags| => [' '] + tags[i])
  }

  lemma {:induction false} JoinSpaced(tags: seq<String>)
    requires |tags| >= 1
    ensures Join(Spaced(tags), [',']) == [' '] + Join(tags, ", ")
    decreases |tags|
  {
    if |tags| > 1 {
      assert Spaced(tags)[1..] == Spaced(tags[1..]);
      JoinSpaced(tags[1..]);
      assert ", " == [','] + [' '];
    }
  }

  lemma {:induction false} NonEmptyPiecesKeepsAll(parts: seq<String>)
    requires forall i :: 0 <= i < |parts| ==> parts[i] != []
    ensures NonEmptyPieces(parts) == parts
    decreases |parts|
  {
    if parts != [] {
      NonEmptyPiecesKeepsAll(parts[1..]);
    }
  }

  /** A normalised tag behind a space normalises back to itself. */
  lemma SpacedTagNormal(t: String)
    requires NormalizedTag(t) == t
    ensures NormalizedTag([' '] + t) == t
  {
    TrimStartCons(' ', t, WhitespacesAndNewlines);
  }

  /** The comma-separated pieces of tags joined by ", ". */
  function JoinedPieces(tags: seq<String>): (r: seq<String>)
    requires |tags| >= 1
    ensures |r| == |tags| && r[0] == tags[0]
    ensures forall i :: 1 <= i < |tags| ==> r[i] == [' '] + tags[i]
  {
    [tags[0]] + Spaced(tags[1..])
  }

  lemma CommaSpace(a: String, b: String)
    ensures a + [','] + ([' '] + b) == a + ", " + b
  {
    assert |a + [','] + ([' '] + b)| == |a + ", " + b|;
    forall i | 0 <= i < |a + ", " + b| ensures (a + [','] + ([' '] + b))[i] == (a + ", " + b)[i] {
    }
  }

  lemma JoinAsPieces(tags: seq<String>)
    requires |tags| >= 1
    ensures Join(JoinedPieces(tags), [',']) == Join(tags, ", ")
  {
    var pieces := JoinedPieces(tags);
    if |tags| > 1 {
      var rest := tags[1..];
      var tail := Join(rest, ", ");
      assert pieces[1..] == Spaced(rest);
      JoinSpaced(rest);
      calc {
        Join(pieces, [',']);
        pieces[0] + [','] + Join(pieces[1..], [',']);
        tags[0] + [','] + ([' '] + tail);
        { CommaSpace(tags[0], tail); }
        tags[0] + ", " + tail;
        Join(tags, ", ");
      }
    }
  }

  lemma PiecesCommaFree(tags: seq<String>, i: nat)
    requires i < |tags| && ',' !in tags[i]
    ensures NoneIn(([' '] + tags[i]), Just(',')) && NoneIn(tags[i], Just(','))
  {
    forall j | 0 <= j < |tags[i]| ensures tags[i][j] != ',' {
      assert tags[i][j] in tags[i];
    }
    forall j | 0 <= j < |[' '] + tags[i]| ensures ([' '] + tags[i])[j] != ',' {
      if j > 0 {
        assert ([' '] + tags[i])[j] == tags[i][j - 1];
      }
    }
  }

  /**
   * Editing a note writes its tags into the capture form joined by ", ";
   * submitting the form unchanged parses that text back into the same tags, for
   * tags as the repository stores them (distinct, non-empty and normalised) that
   * hold no comma.
   */
  lemma EditedTagsRoundTrip(tags: seq<String>)
    requires Distinct(tags)
    requires forall i :: 0 <= i < |tags| ==> tags[i] != [] && NormalizedTag(tags[i]) == tags[i] && ',' !in tags[i]
    ensures TagInputTags(Join(tags, ", ")) == tags
  {
    if tags == [] {
      assert Split([], Just(',')) == [[]];
    } else {
      var input := Join(tags, ", ");
      calc {
        TagInputTags(input);
        FirstOccurrences(NormalizeAll(SplitOmittingEmpty(input, ',')));
        { SplitJoinedTags(tags); }
        FirstOccurrences(NormalizeAll(JoinedPieces(tags)));
        { NormalizeJoinedPieces(tags); }
        FirstOccurrences(tags);
        { FirstOccurrencesOfDistinct(tags); }
        tags;
      }
    }
  }

  lemma SplitJoinedTags(tags: seq<String>)
    requires |tags| >= 1
    requires forall i :: 0 <= i < |tags| ==> tags[i] != [] && NormalizedTag(tags[i]) == tags[i] && ',' !in tags[i]
    ensures SplitOmittingEmpty(Join(tags, ", "), ',') == JoinedPieces(tags)
  {
    var pieces := JoinedPieces(tags);
    JoinAsPieces(tags);
    JoinedPiecesFacts(tags);
    SplitJoin(pieces, ',', Just(','));
    NonEmptyPiecesKeepsAll(pieces);
  }

  lemma NormalizeJoinedPieces(tags: seq<String>)
    requires |tags| >= 1
    requires forall i :: 0 <= i < |tags| ==> tags[i] != [] && NormalizedTag(tags[i]) == tags[i] && ',' !in tags[i]
    ensures NormalizeAll(JoinedPieces(tags)) == tags
  {
    JoinedPiecesFacts(tags);
  }

  lemma JoinedPiecesFacts(tags: seq<String>)
    requires |tags| >= 1
    requires forall i :: 0 <= i < |tags| ==> tags[i] != [] && NormalizedTag(tags[i]) == tags[i] && ',' !in tags[i]
    ensures forall i :: 0 <= i < |tags| ==>
      JoinedPieces(tags)[i] != [] && NoneIn(JoinedPieces(tags)[i], Just(',')) && TrimLower(JoinedPieces(tags)[i]) == tags[i]
  {
    var pieces := JoinedPieces(tags);
    forall i | 0 <= i < |tags|
      ensures pieces[i] != [] && NoneIn(pieces[i], Just(',')) && TrimLower(pieces[i]) == tags[i]
    {
      PiecesCommaFree(tags, i);
      if i > 0 {
        SpacedTagNormal(tags[i]);
      }
    }
  }

  /** A note shown as a draft. */
  function DraftOf(n: FocusNoteRecord): NoteDraft {
    NoteDraft(n.id, n.text, n.tags, n.priority, n.createdAt)
  }

  /** Newest first: `a` may precede `b` when it was not created earlier. */
  predicate CreatedNotEarlier(a: FocusNoteRecord, b: FocusNoteRecord) {
    NotAfter(b.createdAt, a.createdAt)
  }

  lemma CreatedNotEarlierTotalPreorder()
    ensures IsTotalPreorder(CreatedNotEarlier)
  {
    forall a: FocusNoteRecord, b: FocusNoteRecord ensures CreatedNotEarlier(a, b) || CreatedNotEarlier(b, a) {
      BeforeTrichotomy(a.createdAt, b.createdAt);
      if Before(a.createdAt, b.createdAt) && Before(b.createdAt, a.createdAt) {
        BeforeTransitive(a.createdAt, b.createdAt, a.createdAt);
        BeforeIrreflexive(a.createdAt);
      }
    }
    forall a: FocusNoteRecord, b: FocusNoteRecord, c: FocusNoteRecord |
      CreatedNotEarlier(a, b) && CreatedNotEarlier(b, c)
      ensures CreatedNotEarlier(a, c)
    {
      BeforeTrichotomy(a.createdAt, b.createdAt);
      BeforeTrichotomy(b.createdAt, c.createdAt);
      if Before(a.createdAt, c.createdAt) {
        BeforeTrichotomy(b.createdAt, a.createdAt);
        if Before(b.createdAt, c.createdAt) {
          BeforeTransitive(a.createdAt, c.createdAt, b.createdAt);
        }
      }
    }
  }

  function DraftsOf(notes: seq<FocusNoteRecord>): (r: seq<NoteDraft>)
    ensures |r| == |notes|
    ensures forall i :: 0 <= i < |notes| ==> r[i] == DraftOf(notes[i])
  {
    seq(|notes|, i requires 0 <= i < |notes| => DraftOf(notes[i]))
  }

  /** What `syncNoteDrafts` stores: no drafts without a session, else its notes newest first. */
  function NoteDraftsOf(active: Option<FocusSessionRecord>): seq<NoteDraft> {
    match active
    case None => []
    case Some(s) => DraftsOf(SortBy(s.notes, CreatedNotEarlier))
  }

  /**
   * The drafts are the session's notes, newest first: one draft per note, each
   * carrying its note's fields.
   */
  lemma NoteDraftsOrdered(s: FocusSessionRecord)
    ensures |NoteDraftsOf(Some(s))| == |s.notes|
    ensures forall i, j :: 0 <= i < j < |NoteDraftsOf(Some(s))| ==>
      NotAfter(NoteDraftsOf(Some(s))[j].createdAt, NoteDraftsOf(Some(s))[i].createdAt)
    ensures forall n :: n in s.notes ==> DraftOf(n) in NoteDraftsOf(Some(s))
    ensures forall d :: d in NoteDraftsOf(Some(s)) ==> exists n :: n in s.notes && DraftOf(n) == d
  {
    var sorted := SortBy(s.notes, CreatedNotEarlier);
    var drafts := DraftsOf(sorted);
    CreatedNotEarlierTotalPreorder();
    SortBySorted(s.notes, CreatedNotEarlier);
    forall i, j | 0 <= i < j < |drafts| ensures NotAfter(drafts[j].createdAt, drafts[i].createdAt) {
      assert CreatedNotEarlier(sorted[i], sorted[j]);
    }
    forall n | n in s.notes ensures DraftOf(n) in drafts {
      assert n in multiset(sorted);
      var k :| 0 <= k < |sorted| && sorted[k] == n;
      assert drafts[k] == DraftOf(n);
    }
    forall d | d in drafts ensures exists n :: n in s.notes && DraftOf(n) == d {
      var k :| 0 <= k < |drafts| && drafts[k] == d;
      assert sorted[k] in multiset(s.notes);
    }
  }

  /** Categories in name order, ignoring case. */
  predicate CaseInsensitiveNameLe(a: SessionCategoryRecord, b: SessionCategoryRecord) {
    LexLe(ToLower(a.name), ToLower(b.name))
  }

  lemma CaseInsensitiveNameLeTotalPreorder()
    ensures IsTotalPreorder(CaseInsensitiveNameLe)
  {
    forall a: SessionCategoryRecord, b: SessionCategoryRecord
      ensures CaseInsensitiveNameLe(a, b) || CaseInsensitiveNameLe(b, a)
    {
      LexLeTotal(ToLower(a.name), ToLower(b.name));
    }
    forall a: SessionCategoryRecord, b: SessionCategoryRecord, c: SessionCategoryRecord |
      CaseInsensitiveNameLe(a, b) && CaseInsensitiveNameLe(b, c)
      ensures CaseInsensitiveNameLe(a, c)
    {
      LexLeTransitive(ToLower(a.name), ToLower(b.name), ToLower(c.name));
    }
  }

  /** The categories as `loadCategoriesResponse` stores them. */
  function SortedCategories(categories: seq<SessionCategoryRecord>): seq<SessionCategoryRecord> {
    SortBy(categories, CaseInsensitiveNameLe)
  }

  /**
   * The stored categories are the loaded ones, sorted by name ignoring case, so
   * sorting changes no prompt's choice of category.
   */
  lemma SortedCategoriesOrdered(categories: seq<SessionCategoryRecord>)
    ensures multiset(SortedCategories(categories)) == multiset(categories)
    ensures SortedBy(SortedCategories(categories), CaseInsensitiveNameLe)
    ensures forall id :: HasCategory(SortedCategories(categories), id) == HasCategory(categories, id)
  {
    CaseInsensitiveNameLeTotalPreorder();
    SortBySorted(categories, CaseInsensitiveNameLe);
    forall id ensures HasCategory(SortedCategories(categories), id) == HasCategory(categories, id) {
      HasCategoryPermuted(SortedCategories(categories), categories, id);
    }
  }

  /** A rearrangement of the categories offers the same ids. */
  lemma HasCategoryPermuted(a: seq<SessionCategoryRecord>, b: seq<SessionCategoryRecord>, id: Uuid)
    requires multiset(a) == multiset(b)
    ensures HasCategory(a, id) == HasCategory(b, id)
  {
    if HasCategory(a, id) {
      var k :| 0 <= k < |a| && a[k].id == id;
      assert a[k] in multiset(b);
    }
    if HasCategory(b, id) {
      var k :| 0 <= k < |b| && b[k].id == id;
      assert b[k] in multiset(a);
    }
  }

  /** The end-session prompt once a category list arrives: its category falls back to focus when absent. */
  function DraftWithCategories(d: EndSessionDraft, categories: seq<SessionCategoryRecord>): (r: EndSessionDraft)
    ensures r.id == d.id && r.name == d.name && r.categories == categories
    ensures HasCategory(categories, d.selectedCategoryID) ==> r.selectedCategoryID == d.selectedCategoryID
    ensures !HasCategory(categories, d.selectedCategoryID) ==> r.selectedCategoryID == FocusCategoryId
  {
    d.(categories := categories,
       selectedCategoryID := if HasCategory(categories, d.selectedCategoryID) then d.selectedCategoryID else FocusCategoryId)
  }

  /** The end-session prompt once the active session is reloaded: its name, and its category when offered. */
  function DraftForSession(d: EndSessionDraft, s: FocusSessionRecord, categories: seq<SessionCategoryRecord>): (r: EndSessionDraft)
    ensures r.id == d.id && r.name == s.name && r.categories == d.categories
    ensures HasCategory(categories, s.categoryID) ==> r.selectedCategoryID == s.categoryID
    ensures !HasCategory(categories, s.categoryID) ==> r.selectedCategoryID == d.selectedCategoryID
  {
    d.(name := s.name,
       selectedCategoryID := if HasCategory(categories, s.categoryID) then s.categoryID else d.selectedCategoryID)
  }

  function IsEnded(): FocusSessionRecord -> bool {
    (s: FocusSessionRecord) => s.endedAt.Some?
  }

  function SessionIds(sessions: seq<FocusSessionRecord>): (r: seq<Uuid>)
    ensures |r| == |sessions|
    ensures forall i :: 0 <= i < |sessions| ==> r[i] == sessions[i].id
  {
    seq(|sessions|, i requires 0 <= i < |sessions| => sessions[i].id)
  }

  /** The ids of the ended sessions, in list order: what "export all" sends. */
  function EndedSessionIds(sessions: seq<FocusSessionRecord>): (r: seq<Uuid>)
    ensures |r| <= |sessions|
    ensures forall id :: id in r <==> exists k :: 0 <= k < |sessions| && sessions[k].endedAt.Some? && sessions[k].id == id
  {
    EndedSessionIdsMembers(sessions);
    SessionIds(Filter(sessions, IsEnded()))
  }

  lemma EndedSessionIdsMembers(sessions: seq<FocusSessionRecord>)
    ensures forall id :: id in SessionIds(Filter(sessions, IsEnded())) <==>
      exists k :: 0 <= k < |sessions| && sessions[k].endedAt.Some? && sessions[k].id == id
  {
    var ended := Filter(sessions, IsEnded());
    forall id | id in SessionIds(ended)
      ensures exists k :: 0 <= k < |sessions| && sessions[k].endedAt.Some? && sessions[k].id == id
    {
      var i :| 0 <= i < |ended| && SessionIds(ended)[i] == id;
      assert IsEnded()(ended[i]) && ended[i] in sessions;
      var k :| 0 <= k < |sessions| && sessions[k] == ended[i];
    }
    forall id | exists k :: 0 <= k < |sessions| && sessions[k].endedAt.Some? && sessions[k].id == id
      ensures id in SessionIds(ended)
    {
      var k :| 0 <= k < |sessions| && sessions[k].endedAt.Some? && sessions[k].id == id;
      assert sessions[k] in sessions && IsEnded()(sessions[k]);
      assert sessions[k] in ended;
      var i :| 0 <= i < |ended| && ended[i] == sessions[k];
      assert SessionIds(ended)[i] == id;
    }
  }

  /** "Export all" sends exactly the sessions that are no longer active. */
  lemma ExportsInactiveSessions(sessions: seq<FocusSessionRecord>)
    ensures forall id :: id in EndedSessionIds(sessions) <==>
      exists k :: 0 <= k < |sessions| && !sessions[k].IsActive() && sessions[k].id == id
  {
  }

  /** The message after an export of `count` files. */
  function ExportedMessage(count: nat): (r: String)
    ensures |r| >= 36 && r[..9] == "Exported " && r[|r| - 26..] == " session markdown file(s)."
    ensures AllAsciiDigits(r[9..|r| - 26]) && DecimalValue(r[9..|r| - 26]) == count
  {
    var n := DecimalString(count);
    var r := "Exported " + n + " session markdown file(s).";
    assert r[9..|r| - 26] == n;
    DecimalRoundTrip(count);
    r
  }

  // ---------------------------------------------------------------------------
  // The reducer
  // ---------------------------------------------------------------------------

  /** The application state; each method is the synchronous part of one action. */
  class State {
    var activeSession: Option<FocusSessionRecord>
    var noteDrafts: seq<NoteDraft>
    var categories: seq<SessionCategoryRecord>
    var hotkeys: HotkeySettings
    var captureDraft: CaptureDraft
    var endSessionDraft: Option<EndSessionDraft>
    var settings: SettingsState
    var windowDestinations: set<WindowDestination>
    var sessionWindowFocusRequest: Int64
    var hasLaunched: bool

    /**
     * An end-session prompt exists only for an active session, and without an
     * active session there are no note drafts.
     */
    predicate Valid()
      reads this
    {
      && (endSessionDraft.Some? ==> activeSession.Some?)
      && (activeSession.None? ==> noteDrafts == [])
    }

    /** The state at launch: nothing loaded, no window open, the default hotkeys. */
    constructor()
      ensures Valid()
      ensures activeSession == None && noteDrafts == [] && categories == []
      ensures hotkeys == DefaultHotkeys && captureDraft == EmptyCaptureDraft && endSessionDraft == None
      ensures settings == InitialSettings && windowDestinations == {}
      ensures sessionWindowFocusRequest == 0 && !hasLaunched
    {
      activeSession := None;
      noteDrafts := [];
      categories := [];
      hotkeys := DefaultHotkeys;
      captureDraft := EmptyCaptureDraft;
      endSessionDraft := None;
      settings := InitialSettings;
      windowDestinations := {};
      sessionWindowFocusRequest := 0;
      hasLaunched := false;
    }

    /** A binding action: the framework writes the bound field; the reducer adds nothing. */
    method BindingChanged() returns (effect: AppEffect)
      ensures effect == NoEffect
    {
      effect := NoEffect;
    }

    /**
     * `onLaunch`, with `loaded` what the hotkey settings client loads: only the
     * first launch counts; it copies the hotkeys into the state and the settings
     * and starts registering them and loading the data.
     */
    method OnLaunch(loaded: HotkeySettings) returns (effect: AppEffect)
      modifies this`hasLaunched, this`hotkeys, this`settings
      ensures old(hasLaunched) ==>
        hasLaunched && hotkeys == old(hotkeys) && settings == old(settings) && effect == NoEffect
      ensures !old(hasLaunched) ==>
        hasLaunched && hotkeys == loaded
        && settings == old(settings).(startShortcut := loaded.startShortcut, captureShortcut := loaded.captureShortcut)
        && effect == Merge([Send(RegisterHotkeys(loaded)), Run(LoadActiveSession), Run(LoadCategories),
                            Send(SettingsRefreshTapped)])
    {
      if hasLaunched {
        return NoEffect;
      }
      hasLaunched := true;
      hotkeys := loaded;
      settings := settings.(startShortcut := loaded.startShortcut, captureShortcut := loaded.captureShortcut);
      effect := Merge([Send(RegisterHotkeys(loaded)), Run(LoadActiveSession), Run(LoadCategories),
                       Send(SettingsRefreshTapped)]);
    }

    /**
     * `appWillTerminate`: with an active session, ends it at once (`sync` is the
     * `endSessionSync` call, for app closing), clears the session, its drafts, the
     * windows and the end-session prompt, and cancels the long-running effects.
     * Without one it changes nothing.
     */
    method AppWillTerminate() returns (effect: AppEffect, sync: Option<EndRequest>)
      modifies this`activeSession, this`noteDrafts, this`windowDestinations, this`endSessionDraft
      ensures old(Valid()) ==> Valid()
      ensures old(activeSession).None? ==>
        activeSession == None && noteDrafts == old(noteDrafts) && windowDestinations == old(windowDestinations)
        && endSessionDraft == old(endSessionDraft) && effect == NoEffect && sync == None
      ensures old(activeSession).Some? ==>
        activeSession == None && noteDrafts == [] && windowDestinations == {} && endSessionDraft == None
        && sync == Some(EndRequest(old(activeSession).value.id, None, None, AppClosed))
        && effect == Merge([Cancel(InactivityMonitor), Cancel(HotkeyRegistration)])
    {
      if activeSession.None? {
        return NoEffect, None;
      }
      sync := Some(EndRequest(activeSession.value.id, None, None, AppClosed));
      activeSession := None;
      noteDrafts := [];
      windowDestinations := {};
      endSessionDraft := None;
      effect := Merge([Cancel(InactivityMonitor), Cancel(HotkeyRegistration)]);
    }

    /**
     * `inactivityTick`, with `idleDuration` the idle seconds the inactivity client
     * reports: an active session idle for eight hours or more ends itself.
     */
    method InactivityTick(idleDuration: real) returns (effect: AppEffect)
      ensures effect == (if activeSession.Some? && idleDuration >= 28800.0 then Send(AutoEndSession) else NoEffect)
    {
      if activeSession.None? {
        return NoEffect;
      }
      if idleDuration >= InactivityLimit {
        return Send(AutoEndSession);
      }
      effect := NoEffect;
    }

    /** `hotkeyTriggered(kind)`: the start hotkey starts a session, the capture hotkey captures. */
    method HotkeyTriggered(kind: HotkeyKind) returns (effect: AppEffect)
      ensures kind == StartSessionHotkey ==> effect == Send(StartSessionTapped)
      ensures kind == CaptureHotkey ==> effect == Send(CaptureTapped)
    {
      match kind {
        case StartSessionHotkey => effect := Send(StartSessionTapped);
        case CaptureHotkey => effect := Send(CaptureTapped);
      }
    }

    /** `registerHotkeys(settings)`: listens for the shortcuts, replacing any earlier listener. */
    method RegisterHotkeysAction(settings: HotkeySettings) returns (effect: AppEffect)
      ensures effect == RunCancellable(ListenForHotkeys(settings), HotkeyRegistration)
    {
      effect := RunCancellable(ListenForHotkeys(settings), HotkeyRegistration);
    }

    /** `startSessionTapped`: with a session, opens it; otherwise opens the session window and starts one. */
    method StartSessionTappedAction() returns (effect: AppEffect)
      modifies this`windowDestinations
      ensures activeSession.Some? ==> windowDestinations == old(windowDestinations) && effect == Send(OpenSessionTapped)
      ensures activeSession.None? ==>
        windowDestinations == old(windowDestinations) + {SessionWindow} && effect == Run(StartSession)
    {
      if activeSession.Some? {
        return Send(OpenSessionTapped);
      }
      windowDestinations := windowDestinations + {SessionWindow};
      effect := Run(StartSession);
    }

    /**
     * `captureTapped`: with a session, opens the capture window; otherwise opens
     * the session and capture windows and starts a session to capture into.
     */
    method CaptureTappedAction() returns (effect: AppEffect)
      modifies this`windowDestinations
      ensures activeSession.Some? ==>
        windowDestinations == old(windowDestinations) + {CaptureWindow} && effect == NoEffect
      ensures activeSession.None? ==>
        windowDestinations == old(windowDestinations) + {SessionWindow, CaptureWindow} && effect == Run(StartCaptureSession)
    {
      if activeSession.Some? {
        windowDestinations := windowDestinations + {CaptureWindow};
        return NoEffect;
      }
      windowDestinations := windowDestinations + {SessionWindow};
      windowDestinations := windowDestinations + {CaptureWindow};
      effect := Run(StartCaptureSession);
    }

    /** `openSessionTapped`: with a session, opens its window and asks for focus once more. */
    method OpenSessionTappedAction() returns (effect: AppEffect)
      modifies this`windowDestinations, this`sessionWindowFocusRequest
      ensures activeSession.None? ==>
        windowDestinations == old(windowDestinations) && sessionWindowFocusRequest == old(sessionWindowFocusRequest)
      ensures activeSession.Some? ==>
        windowDestinations == old(windowDestinations) + {SessionWindow}
        && sessionWindowFocusRequest == WrappingIncrement(old(sessionWindowFocusRequest))
      ensures effect == NoEffect
    {
      effect := NoEffect;
      if activeSession.None? {
        return;
      }
      windowDestinations := windowDestinations + {SessionWindow};
      sessionWindowFocusRequest := WrappingIncrement(sessionWindowFocusRequest);
    }

    /** The end-session prompt for the active session, with `draftID` the id `uuid()` would draw. */
    function PromptFor(draftID: Uuid): (r: EndSessionDraft)
      reads this
      requires activeSession.Some?
      ensures r.name == activeSession.value.name && r.selectedCategoryID == activeSession.value.categoryID
      ensures r.categories == categories && r.id == draftID
    {
      EndSessionDraft(draftID, activeSession.value.name, activeSession.value.categoryID, categories)
    }

    /** `endSessionTapped`: with a session, prompts for its name and category. */
    method EndSessionTapped(draftID: Uuid) returns (effect: AppEffect)
      modifies this`endSessionDraft
      ensures old(Valid()) ==> Valid()
      ensures activeSession.None? ==> endSessionDraft == old(endSessionDraft)
      ensures activeSession.Some? ==> endSessionDraft == Some(PromptFor(draftID))
      ensures effect == NoEffect
    {
      effect := NoEffect;
      if activeSession.None? {
        return;
      }
      endSessionDraft := Some(PromptFor(draftID));
    }

    /**
     * `sessionWindowEndSessionTapped`: with a session, prompts for its name and
     * category, closing the capture and session windows for the end-session one.
     */
    method SessionWindowEndSessionTapped(draftID: Uuid) returns (effect: AppEffect)
      modifies this`endSessionDraft, this`windowDestinations
      ensures old(Valid()) ==> Valid()
      ensures activeSession.None? ==>
        endSessionDraft == old(endSessionDraft) && windowDestinations == old(windowDestinations)
      ensures activeSession.Some? ==>
        endSessionDraft == Some(PromptFor(draftID))
        && windowDestinations == old(windowDestinations) - {CaptureWindow, SessionWindow} + {EndSessionWindow}
      ensures effect == NoEffect
    {
      effect := NoEffect;
      if activeSession.None? {
        return;
      }
      endSessionDraft := Some(PromptFor(draftID));
      windowDestinations := windowDestinations - {CaptureWindow};
      windowDestinations := windowDestinations - {SessionWindow};
      windowDestinations := windowDestinations + {EndSessionWindow};
    }

    /** `sessionWindowClosed`: forgets the session window. */
    method SessionWindowClosed() returns (effect: AppEffect)
      modifies this`windowDestinations
      ensures windowDestinations == old(windowDestinations) - {SessionWindow}
      ensures effect == NoEffect
    {
      windowDestinations := windowDestinations - {SessionWindow};
      effect := NoEffect;
    }

    /** `captureWindowClosed`: forgets the capture window and resets the capture form. */
    method CaptureWindowClosed() returns (effect: AppEffect)
      modifies this`windowDestinations, this`captureDraft
      ensures windowDestinations == old(windowDestinations) - {CaptureWindow}
      ensures captureDraft == EmptyCaptureDraft
      ensures effect == NoEffect
    {
      windowDestinations := windowDestinations - {CaptureWindow};
      captureDraft := EmptyCaptureDraft;
      effect := NoEffect;
    }

    /** `endSessionWindowClosed`: forgets the end-session window and its prompt. */
    method EndSessionWindowClosed() returns (effect: AppEffect)
      modifies this`windowDestinations, this`endSessionDraft
      ensures old(Valid()) ==> Valid()
      ensures windowDestinations == old(windowDestinations) - {EndSessionWindow}
      ensures endSessionDraft == None
      ensures effect == NoEffect
    {
      windowDestinations := windowDestinations - {EndSessionWindow};
      endSessionDraft := None;
      effect := NoEffect;
    }

    /**
     * `captureSubmitTapped`: with a session, saves the capture form as a new note
     * or over the note being edited, with its tag text parsed, then resets the form
     * and closes the capture window.
     */
    method CaptureSubmitTapped() returns (effect: AppEffect)
      modifies this`captureDraft, this`windowDestinations
      ensures activeSession.None? ==>
        captureDraft == old(captureDraft) && windowDestinations == old(windowDestinations) && effect == NoEffect
      ensures activeSession.Some? ==>
        captureDraft == EmptyCaptureDraft && windowDestinations == old(windowDestinations) - {CaptureWindow}
        && effect == Run(SaveCapture(activeSession.value.id, old(captureDraft).editingNoteID, old(captureDraft).text,
                                     old(captureDraft).priority, TagInputTags(old(captureDraft).tags)))
    {
      if activeSession.None? {
        return NoEffect;
      }
      var draft := captureDraft;
      var tags := ParseTagInput(draft.tags);
      captureDraft := EmptyCaptureDraft;
      windowDestinations := windowDestinations - {CaptureWindow};
      effect := Run(SaveCapture(activeSession.value.id, draft.editingNoteID, draft.text, draft.priority, tags));
    }

    /** `sessionAddNoteTapped`: a fresh capture form in the capture window. */
    method SessionAddNoteTapped() returns (effect: AppEffect)
      modifies this`captureDraft, this`windowDestinations
      ensures captureDraft == EmptyCaptureDraft && windowDestinations == old(windowDestinations) + {CaptureWindow}
      ensures effect == NoEffect
    {
      captureDraft := EmptyCaptureDraft;
      windowDestinations := windowDestinations + {CaptureWindow};
      effect := NoEffect;
    }

    /** `sessionNoteEditTapped(id)`: loads the note's draft into the capture form for editing. */
    method SessionNoteEditTapped(noteID: Uuid) returns (effect: AppEffect)
      modifies this`captureDraft, this`windowDestinations
      ensures FindDraft(noteDrafts, noteID).None? ==>
        captureDraft == old(captureDraft) && windowDestinations == old(windowDestinations)
      ensures FindDraft(noteDrafts, noteID).Some? ==>
        captureDraft == EditingDraft(noteDrafts[FindDraft(noteDrafts, noteID).value])
        && windowDestinations == old(windowDestinations) + {CaptureWindow}
      ensures effect == NoEffect
    {
      effect := NoEffect;
      var found := FindDraft(noteDrafts, noteID);
      if found.None? {
        return;
      }
      var draft := noteDrafts[found.value];
      captureDraft := captureDraft.(text := draft.text);
      captureDraft := captureDraft.(tags := Join(draft.tags, ", "));
      captureDraft := captureDraft.(priority := draft.priority);
      captureDraft := captureDraft.(editingNoteID := Some(noteID));
      windowDestinations := windowDestinations + {CaptureWindow};
    }

    /** `sessionRenameTapped(name)`: with a session, renames it. */
    method SessionRenameTapped(name: String) returns (effect: AppEffect)
      ensures effect == (if activeSession.Some? then Run(RenameActiveSession(activeSession.value.id, name)) else NoEffect)
    {
      if activeSession.None? {
        return NoEffect;
      }
      effect := Run(RenameActiveSession(activeSession.value.id, name));
    }

    /** `sessionCategoryChangedTapped(id)`: with a session, moves it to that category. */
    method SessionCategoryChangedTapped(categoryID: Uuid) returns (effect: AppEffect)
      ensures effect ==
        (if activeSession.Some? then Run(ChangeSessionCategory(activeSession.value.id, categoryID)) else NoEffect)
    {
      if activeSession.None? {
        return NoEffect;
      }
      effect := Run(ChangeSessionCategory(activeSession.value.id, categoryID));
    }

    /** `sessionNoteSaveTapped`: with a session, saves the note as given. */
    method SessionNoteSaveTapped(noteID: Uuid, text: String, tags: seq<String>, priority: NotePriority)
      returns (effect: AppEffect)
      ensures effect == (if activeSession.Some? then Run(UpdateNote(noteID, text, priority, tags)) else NoEffect)
    {
      if activeSession.None? {
        return NoEffect;
      }
      effect := Run(UpdateNote(noteID, text, priority, tags));
    }

    /**
     * `sessionNoteTaskToggleTapped(id, line)`: needs a session and the note's
     * draft; the draft's text becomes `toggleTask` of it and is saved, unless
     * toggling leaves the text as it was.
     */
    method SessionNoteTaskToggleTapped(noteID: Uuid, lineIndex: int) returns (effect: AppEffect)
      modifies this`noteDrafts
      ensures old(Valid()) ==> Valid()
      ensures activeSession.None? || FindDraft(old(noteDrafts), noteID).None? ==>
        noteDrafts == old(noteDrafts) && effect == NoEffect
      ensures activeSession.Some? && FindDraft(old(noteDrafts), noteID).Some? ==>
        var k := FindDraft(old(noteDrafts), noteID).value;
        var d := old(noteDrafts)[k];
        var toggled := EditingCore.ToggleTask(d.text, lineIndex);
        (if toggled == d.text then noteDrafts == old(noteDrafts) && effect == NoEffect
         else noteDrafts == old(noteDrafts)[k := d.(text := toggled)]
              && effect == Run(UpdateNote(noteID, toggled, d.priority, d.tags)))
    {
      if activeSession.None? {
        return NoEffect;
      }
      var found := FindDraft(noteDrafts, noteID);
      if found.None? {
        return NoEffect;
      }
      var draft := noteDrafts[found.value];
      var toggled := EditingCore.ToggleTask(draft.text, lineIndex);
      if toggled == draft.text {
        return NoEffect;
      }
      noteDrafts := noteDrafts[found.value := draft.(text := toggled)];
      effect := Run(UpdateNote(noteID, toggled, draft.priority, draft.tags));
    }

    /** `sessionNoteDeleteTapped(id)`: with a session, deletes the note. */
    method SessionNoteDeleteTapped(noteID: Uuid) returns (effect: AppEffect)
      ensures effect == (if activeSession.Some? then Run(DeleteNote(noteID)) else NoEffect)
    {
      if activeSession.None? {
        return NoEffect;
      }
      effect := Run(DeleteNote(noteID));
    }

    /**
     * `endSessionConfirmTapped(name, category)`: with a session, drops the prompt,
     * closes every window and ends the session by hand with that name and category.
     */
    method EndSessionConfirmTapped(name: String, categoryID: Option<Uuid>) returns (effect: AppEffect)
      modifies this`endSessionDraft, this`windowDestinations
      ensures old(Valid()) ==> Valid()
      ensures activeSession.None? ==>
        endSessionDraft == old(endSessionDraft) && windowDestinations == old(windowDestinations) && effect == NoEffect
      ensures activeSession.Some? ==>
        endSessionDraft == None
        && windowDestinations == old(windowDestinations) - {EndSessionWindow, CaptureWindow, SessionWindow} == {}
        && effect == Run(EndSession(EndRequest(activeSession.value.id, Some(name), categoryID, Manual)))
    {
      if activeSession.None? {
        return NoEffect;
      }
      endSessionDraft := None;
      windowDestinations := windowDestinations - {EndSessionWindow};
      windowDestinations := windowDestinations - {CaptureWindow};
      windowDestinations := windowDestinations - {SessionWindow};
      AllWindowsClosed(old(windowDestinations));
      effect := Run(EndSession(EndRequest(activeSession.value.id, Some(name), categoryID, Manual)));
    }

    /** `endSessionCancelTapped`: drops the prompt and its window. */
    method EndSessionCancelTapped() returns (effect: AppEffect)
      modifies this`endSessionDraft, this`windowDestinations
      ensures old(Valid()) ==> Valid()
      ensures endSessionDraft == None && windowDestinations == old(windowDestinations) - {EndSessionWindow}
      ensures effect == NoEffect
    {
      endSessionDraft := None;
      windowDestinations := windowDestinations - {EndSessionWindow};
      effect := NoEffect;
    }

    /**
     * `autoEndSession`: with a session, drops the prompt, closes every window and
     * ends the session for inactivity, keeping its name and category.
     */
    method AutoEndSessionAction() returns (effect: AppEffect)
      modifies this`endSessionDraft, this`windowDestinations
      ensures old(Valid()) ==> Valid()
      ensures activeSession.None? ==>
        endSessionDraft == old(endSessionDraft) && windowDestinations == old(windowDestinations) && effect == NoEffect
      ensures activeSession.Some? ==>
        endSessionDraft == None
        && windowDestinations == old(windowDestinations) - {EndSessionWindow, CaptureWindow, SessionWindow} == {}
        && effect == Run(EndSession(EndRequest(activeSession.value.id, None, None, Inactivity)))
    {
      if activeSession.None? {
        return NoEffect;
      }
      endSessionDraft := None;
      windowDestinations := windowDestinations - {EndSessionWindow};
      windowDestinations := windowDestinations - {CaptureWindow};
      windowDestinations := windowDestinations - {SessionWindow};
      AllWindowsClosed(old(windowDestinations));
      effect := Run(EndSession(EndRequest(activeSession.value.id, None, None, Inactivity)));
    }

    /** `settingsRefreshTapped`: reloads the sessions and categories. */
    method SettingsRefreshTappedAction() returns (effect: AppEffect)
      ensures effect == Run(LoadSettingsData)
    {
      effect := Run(LoadSettingsData);
    }

    /**
     * `settingsSaveHotkeysTapped`: each typed shortcut is trimmed, and a blank one
     * replaced by its default, which is also written back to the settings field (a
     * non-blank field keeps its text as typed). The previous shortcuts are
     * released (`released`), the result becomes the hotkeys, is saved (`saved`)
     * and registered, and the status reports it.
     */
    method SettingsSaveHotkeysTapped() returns (effect: AppEffect, released: seq<String>, saved: HotkeySettings)
      modifies this`hotkeys, this`settings
      ensures hotkeys == HotkeySettings(Effects.Submission(old(settings).startShortcut).GetOr(DefaultHotkeys.startShortcut),
                                        Effects.Submission(old(settings).captureShortcut).GetOr(DefaultHotkeys.captureShortcut))
      ensures settings.startShortcut ==
        (if Effects.Submission(old(settings).startShortcut).None? then DefaultHotkeys.startShortcut else old(settings).startShortcut)
      ensures settings.captureShortcut ==
        (if Effects.Submission(old(settings).captureShortcut).None? then DefaultHotkeys.captureShortcut else old(settings).captureShortcut)
      ensures settings.sessions == old(settings).sessions && settings.categories == old(settings).categories
      ensures settings.statusMessage == Some("Hotkeys saved")
      ensures released == [old(hotkeys).startShortcut, old(hotkeys).captureShortcut]
      ensures saved == hotkeys && effect == Send(RegisterHotkeys(hotkeys))
    {
      var previous := hotkeys;
      var startShortcut := Trim(settings.startShortcut, WhitespacesAndNewlines);
      TrimEmptyIff(settings.startShortcut, WhitespacesAndNewlines);
      if startShortcut == [] {
        startShortcut := DefaultHotkeys.startShortcut;
        settings := settings.(startShortcut := startShortcut);
      }
      var captureShortcut := Trim(settings.captureShortcut, WhitespacesAndNewlines);
      TrimEmptyIff(settings.captureShortcut, WhitespacesAndNewlines);
      if captureShortcut == [] {
        captureShortcut := DefaultHotkeys.captureShortcut;
        settings := settings.(captureShortcut := captureShortcut);
      }
      released := [previous.startShortcut, previous.captureShortcut];
      hotkeys := HotkeySettings(startShortcut, captureShortcut);
      saved := hotkeys;
      settings := settings.(statusMessage := Some("Hotkeys saved"));
      effect := Send(RegisterHotkeys(hotkeys));
    }

    /**
     * `settingsResetHotkeysTapped`: releases the previous shortcuts and makes the
     * defaults the hotkeys and the settings fields, saved and registered.
     */
    method SettingsResetHotkeysTapped() returns (effect: AppEffect, released: seq<String>, saved: HotkeySettings)
      modifies this`hotkeys, this`settings
      ensures hotkeys == DefaultHotkeys
      ensures settings == old(settings).(startShortcut := DefaultHotkeys.startShortcut,
                                         captureShortcut := DefaultHotkeys.captureShortcut,
                                         statusMessage := Some("Hotkeys reset to defaults"))
      ensures released == [old(hotkeys).startShortcut, old(hotkeys).captureShortcut]
      ensures saved == DefaultHotkeys && effect == Send(RegisterHotkeys(DefaultHotkeys))
    {
      released := [hotkeys.startShortcut, hotkeys.captureShortcut];
      hotkeys := DefaultHotkeys;
      settings := settings.(startShortcut := DefaultHotkeys.startShortcut, captureShortcut := DefaultHotkeys.captureShortcut);
      settings := settings.(statusMessage := Some("Hotkeys reset to defaults"));
      saved := DefaultHotkeys;
      effect := Send(RegisterHotkeys(DefaultHotkeys));
    }

    /** `settingsAddCategoryTapped(name, colour)`: adds the category. */
    method SettingsAddCategoryTapped(name: String, colorHex: String) returns (effect: AppEffect)
      ensures effect == Run(AddCategory(name, colorHex))
    {
      effect := Run(AddCategory(name, colorHex));
    }

    /** `settingsRenameCategoryTapped(id, name, colour)`: renames the category. */
    method SettingsRenameCategoryTapped(id: Uuid, name: String, colorHex: String) returns (effect: AppEffect)
      ensures effect == Run(RenameCategory(id, name, colorHex))
    {
      effect := Run(RenameCategory(id, name, colorHex));
    }

    /** `settingsDeleteCategoryTapped(id)`: deletes the category. */
    method SettingsDeleteCategoryTapped(id: Uuid) returns (effect: AppEffect)
      ensures effect == Run(DeleteCategory(id))
    {
      effect := Run(DeleteCategory(id));
    }

    /** `settingsRenameSessionTapped(id, name)`: renames the session. */
    method SettingsRenameSessionTapped(id: Uuid, name: String) returns (effect: AppEffect)
      ensures effect == Run(RenameSession(id, name))
    {
      effect := Run(RenameSession(id, name));
    }

    /** `settingsDeleteSessionTapped(id)`: deletes the session. */
    method SettingsDeleteSessionTapped(id: Uuid) returns (effect: AppEffect)
      ensures effect == Run(DeleteSession(id))
    {
      effect := Run(DeleteSession(id));
    }

    /**
     * `settingsExportAllTapped(directory)`: exports the ended sessions of the
     * settings list, or reports that there are none.
     */
    method SettingsExportAllTapped(directory: String) returns (effect: AppEffect)
      modifies this`settings
      ensures EndedSessionIds(old(settings).sessions) == [] ==>
        settings == old(settings).(statusMessage := Some("No sessions available to export.")) && effect == NoEffect
      ensures EndedSessionIds(old(settings).sessions) != [] ==>
        settings == old(settings) && effect == Run(Export(EndedSessionIds(old(settings).sessions), directory))
    {
      var sessionIDs := EndedSessionIds(settings.sessions);
      if sessionIDs == [] {
        settings := settings.(statusMessage := Some("No sessions available to export."));
        return NoEffect;
      }
      effect := Run(Export(sessionIDs, directory));
    }

    /** `settingsExportSessionTapped(id, directory)`: exports that one session. */
    method SettingsExportSessionTapped(sessionID: Uuid, directory: String) returns (effect: AppEffect)
      ensures effect == Run(Export([sessionID], directory))
    {
      effect := Run(Export([sessionID], directory));
    }

    /** `settingsExportCompleted(count)`: reports how many files were written. */
    method SettingsExportCompleted(count: nat) returns (effect: AppEffect)
      modifies this`settings
      ensures settings == old(settings).(statusMessage := Some(ExportedMessage(count)))
      ensures effect == NoEffect
    {
      settings := settings.(statusMessage := Some(ExportedMessage(count)));
      effect := NoEffect;
    }

    /** `operationFailed(message)`: shows the message. */
    method OperationFailed(message: String) returns (effect: AppEffect)
      modifies this`settings
      ensures settings == old(settings).(statusMessage := Some(message))
      ensures effect == NoEffect
    {
      settings := settings.(statusMessage := Some(message));
      effect := NoEffect;
    }

    /** `syncNoteDrafts`: the drafts become those of the active session's notes. */
    method SyncNoteDrafts()
      modifies this`noteDrafts
      ensures noteDrafts == NoteDraftsOf(activeSession)
    {
      if activeSession.None? {
        noteDrafts := [];
        return;
      }
      noteDrafts := DraftsOf(SortBy(activeSession.value.notes, CreatedNotEarlier));
    }

    /**
     * `loadActiveSessionResponse(session)`: stores the session and its drafts. With
     * a session, an open prompt takes its name, and its category when that is
     * offered, and the inactivity monitor (re)starts. Without one, the prompt and
     * every window close and the monitor stops.
     */
    method LoadActiveSessionResponse(session: Option<FocusSessionRecord>) returns (effect: AppEffect)
      modifies this`activeSession, this`noteDrafts, this`endSessionDraft, this`windowDestinations
      ensures Valid()
      ensures activeSession == session && noteDrafts == NoteDraftsOf(session)
      ensures session.Some? ==>
        endSessionDraft == (match old(endSessionDraft)
                            case None => None
                            case Some(d) => Some(DraftForSession(d, session.value, categories)))
        && windowDestinations == old(windowDestinations)
        && effect == RunCancellable(InactivityTimer, InactivityMonitor)
      ensures session.None? ==>
        endSessionDraft == None
        && windowDestinations == old(windowDestinations) - {EndSessionWindow, CaptureWindow, SessionWindow} == {}
        && effect == Cancel(InactivityMonitor)
    {
      activeSession := session;
      SyncNoteDrafts();
      if session.Some? {
        if endSessionDraft.Some? {
          var draft := endSessionDraft.value;
          draft := draft.(name := session.value.name);
          if HasCategory(categories, session.value.categoryID) {
            draft := draft.(selectedCategoryID := session.value.categoryID);
          }
          endSessionDraft := Some(draft);
        }
        return RunCancellable(InactivityTimer, InactivityMonitor);
      }
      endSessionDraft := None;
      windowDestinations := windowDestinations - {EndSessionWindow};
      windowDestinations := windowDestinations - {CaptureWindow};
      windowDestinations := windowDestinations - {SessionWindow};
      AllWindowsClosed(old(windowDestinations));
      effect := Cancel(InactivityMonitor);
    }

    /**
     * `loadCategoriesResponse(categories)`: stores them sorted by name ignoring
     * case, in the state and the settings; an open prompt gets the new list and
     * falls back to the focus category when its category is gone.
     */
    method LoadCategoriesResponse(loaded: seq<SessionCategoryRecord>) returns (effect: AppEffect)
      modifies this`categories, this`settings, this`endSessionDraft
      ensures old(Valid()) ==> Valid()
      ensures categories == SortedCategories(loaded)
      ensures settings == old(settings).(categories := categories)
      ensures endSessionDraft == (match old(endSessionDraft)
                                  case None => None
                                  case Some(d) => Some(DraftWithCategories(d, categories)))
      ensures effect == NoEffect
    {
      categories := SortBy(loaded, CaseInsensitiveNameLe);
      settings := settings.(categories := categories);
      if endSessionDraft.Some? {
        var draft := endSessionDraft.value;
        draft := draft.(categories := categories);
        if !HasCategory(categories, draft.selectedCategoryID) {
          draft := draft.(selectedCategoryID := FocusCategoryId);
        }
        endSessionDraft := Some(draft);
      }
      effect := NoEffect;
    }

    /** `settingsDataResponse(sessions, categories)`: stores both lists as they come. */
    method SettingsDataResponse(sessions: seq<FocusSessionRecord>, loaded: seq<SessionCategoryRecord>)
      returns (effect: AppEffect)
      modifies this`settings, this`categories
      ensures settings == old(settings).(sessions := sessions, categories := loaded)
      ensures categories == loaded
      ensures effect == NoEffect
    {
      settings := settings.(sessions := sessions);
      settings := settings.(categories := loaded);
      categories := loaded;
      effect := NoEffect;
    }
  }
}
