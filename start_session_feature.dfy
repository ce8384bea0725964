/** The start-session sheet's reducer (`StartSessionFeature`). */
module StartSessionFeature {
  import opened Wrappers
  import opened Text
  import opened Uuids
  import opened Sorting
  import opened Filtering
  import opened SessionTags
  import opened TagStore
  import opened Effects

  datatype Delegate =
    | StartConfirmed(title: String, tags: seq<SessionTag>, catalog: seq<SessionTag>)
    | Cancelled

  /** The title a session starts with when none is typed. */
  const DefaultTitle: String := "Focus Session"

  /** `ids` with the membership of `id` flipped. */
  function Toggled(ids: set<Uuid>, id: Uuid): (r: set<Uuid>)
    ensures id in r <==> id !in ids
    ensures r - {id} == ids - {id}
  {
    if id in ids then ids - {id} else ids + {id}
  }

  /** Toggling the same id twice restores the selection. */
  lemma ToggledTwice(ids: set<Uuid>, id: Uuid)
    ensures Toggled(Toggled(ids, id), id) == ids
  {
  }

  function IsSelected(ids: set<Uuid>): SessionTag -> bool {
    (tag: SessionTag) => tag.id in ids
  }

  /** `selectedTags`: the catalog tags whose ids are selected, in catalog order. */
  function SelectedTags(catalog: seq<SessionTag>, ids: set<Uuid>): (r: seq<SessionTag>)
    ensures forall t :: t in r <==> t in catalog && t.id in ids
  {
    Filter(catalog, IsSelected(ids))
  }

  /** Selection keeps the catalog's order: the selection of a split catalog is that of its parts. */
  lemma SelectedTagsConcat(a: seq<SessionTag>, b: seq<SessionTag>, ids: set<Uuid>)
    ensures SelectedTags(a + b, ids) == SelectedTags(a, ids) + SelectedTags(b, ids)
  {
    FilterConcat(a, b, IsSelected(ids));
  }

  function IsBuiltInTag(): SessionTag -> bool {
    (tag: SessionTag) => tag.isBuiltIn
  }

  /** `sortCatalog`: the built-in tags sorted by name, then the custom tags sorted by name. */
  function SortCatalog(tags: seq<SessionTag>): seq<SessionTag> {
    SortBy(Filter(tags, IsBuiltInTag()), NameLe) + SortBy(Filter(tags, Not(IsBuiltInTag())), NameLe)
  }

  /**
   * The sorted catalog rearranges the tags so that every built-in precedes every
   * custom tag, and each group is in name order.
   */
  lemma SortCatalogShape(tags: seq<SessionTag>)
    ensures multiset(SortCatalog(tags)) == multiset(tags)
    ensures forall i, j :: 0 <= i < j < |SortCatalog(tags)| && SortCatalog(tags)[j].isBuiltIn ==>
      SortCatalog(tags)[i].isBuiltIn
    ensures forall i, j ::
      0 <= i < j < |SortCatalog(tags)| && SortCatalog(tags)[i].isBuiltIn == SortCatalog(tags)[j].isBuiltIn ==>
        LexLe(SortCatalog(tags)[i].name, SortCatalog(tags)[j].name)
  {
    var b, c := SortBy(Filter(tags, IsBuiltInTag()), NameLe), SortBy(Filter(tags, Not(IsBuiltInTag())), NameLe);
    FilterPartition(tags, IsBuiltInTag());
    SortedGroup(tags, IsBuiltInTag());
    SortedGroup(tags, Not(IsBuiltInTag()));
    GroupsInOrder(b, c);
  }

  /** One group of the catalog, sorted: in name order, and every member passes the group's test. */
  lemma SortedGroup(tags: seq<SessionTag>, p: SessionTag -> bool)
    ensures SortedBy(SortBy(Filter(tags, p), NameLe), NameLe)
    ensures forall k :: 0 <= k < |SortBy(Filter(tags, p), NameLe)| ==> p(SortBy(Filter(tags, p), NameLe)[k])
  {
    var group := Filter(tags, p);
    var sorted := SortBy(group, NameLe);
    NameLeTotalPreorder();
    SortBySorted(group, NameLe);
    forall k | 0 <= k < |sorted| ensures p(sorted[k]) {
      assert sorted[k] in multiset(group);
    }
  }

  /** Two name-sorted groups, built-ins then customs, put like with like in name order. */
  lemma GroupsInOrder(b: seq<SessionTag>, c: seq<SessionTag>)
    requires SortedBy(b, NameLe) && SortedBy(c, NameLe)
    requires forall k :: 0 <= k < |b| ==> b[k].isBuiltIn
    requires forall k :: 0 <= k < |c| ==> !c[k].isBuiltIn
    ensures forall i, j :: 0 <= i < j < |b + c| && (b + c)[j].isBuiltIn ==> (b + c)[i].isBuiltIn
    ensures forall i, j :: 0 <= i < j < |b + c| && (b + c)[i].isBuiltIn == (b + c)[j].isBuiltIn ==>
      LexLe((b + c)[i].name, (b + c)[j].name)
  {
    var r := b + c;
    forall i, j | 0 <= i < j < |r| && r[i].isBuiltIn == r[j].isBuiltIn ensures LexLe(r[i].name, r[j].name) {
      if j < |b| {
        assert NameLe(b[i], b[j]);
      } else if i >= |b| {
        assert NameLe(c[i - |b|], c[j - |b|]);
      }
    }
  }

  /**
   * The index of the first tag whose normalised name is `name` (the source's
   * `first(where:)`), or nothing when no tag has that name.
   */
  function FirstNamed(tags: seq<SessionTag>, name: String): (r: Option<nat>)
    ensures r.None? <==> forall k :: 0 <= k < |tags| ==> tags[k].NormalizedName() != name
    ensures r.Some? ==> r.value < |tags| && tags[r.value].NormalizedName() == name
    ensures r.Some? ==> forall k :: 0 <= k < r.value ==> tags[k].NormalizedName() != name
  {
    if tags == [] then None
    else if tags[0].NormalizedName() == name then Some(0)
    else match FirstNamed(tags[1..], name)
      case None => None
      case Some(k) => Some(k + 1)
  }

  /** The title `startTapped` sends: the trimmed title, or the default when it is blank. */
  function StartTitle(title: String): (r: String)
    ensures r != [] && Trim(r, WhitespacesAndNewlines) == r
    ensures AllIn(title, WhitespacesAndNewlines) ==> r == DefaultTitle
    ensures !AllIn(title, WhitespacesAndNewlines) ==> r == Trim(title, WhitespacesAndNewlines)
  {
    match Submission(title)
    case None =>
      assert !InSet(DefaultTitle[0], WhitespacesAndNewlines) && !InSet(DefaultTitle[12], WhitespacesAndNewlines);
      TrimOfTrimmed(DefaultTitle, WhitespacesAndNewlines);
      DefaultTitle
    case Some(t) => t
  }

  /** A catalog whose names are normalised and pairwise distinct, so a normalised name finds at most one tag. */
  predicate NormalCatalog(tags: seq<SessionTag>) {
    (forall k :: 0 <= k < |tags| ==> tags[k].NormalizedName() == tags[k].name)
    && (forall i, j :: 0 <= i < j < |tags| ==> tags[i].name != tags[j].name)
  }

  /** The built-ins form a normal catalog. */
  lemma BuiltInsNormalCatalog()
    ensures NormalCatalog(BuiltIns)
  {
    forall k | 0 <= k < |BuiltIns| ensures BuiltIns[k].NormalizedName() == BuiltIns[k].name {
      BuiltInsNormalized(k);
    }
    BuiltInsShape();
    forall i, j | 0 <= i < j < |BuiltIns| ensures BuiltIns[i].name != BuiltIns[j].name {
      assert BuiltInNames()[i] == BuiltIns[i].name && BuiltInNames()[j] == BuiltIns[j].name;
    }
  }

  /** Adding a tag under a name no tag has keeps a catalog normal. */
  lemma AppendedNormal(tags: seq<SessionTag>, tag: SessionTag)
    requires NormalCatalog(tags)
    requires tag.NormalizedName() == tag.name
    requires forall k :: 0 <= k < |tags| ==> tags[k].NormalizedName() != tag.name
    ensures NormalCatalog(tags + [tag])
  {
    var added := tags + [tag];
    forall a, b | 0 <= a < b < |added| ensures added[a].name != added[b].name {
      assert added[a] == tags[a];
      if b < |tags| { assert added[b] == tags[b]; }
    }
    forall k | 0 <= k < |added| ensures added[k].NormalizedName() == added[k].name {
      if k < |tags| { assert added[k] == tags[k]; }
    }
  }

  /** A rearrangement of a normal catalog is normal. */
  lemma PermutedNormal(c: seq<SessionTag>, sorted: seq<SessionTag>)
    requires NormalCatalog(c) && multiset(sorted) == multiset(c)
    ensures NormalCatalog(sorted)
  {
    forall k | 0 <= k < |sorted| ensures sorted[k].NormalizedName() == sorted[k].name {
      assert sorted[k] in multiset(c);
    }
    forall i, j | 0 <= i < j < |sorted| ensures sorted[i].name != sorted[j].name {
      SortedDistinctNames(c, sorted, i, j);
    }
  }

  /** Adding a tag under a name no tag has, then sorting, keeps a catalog normal. */
  lemma AddedCatalogNormal(tags: seq<SessionTag>, tag: SessionTag)
    requires NormalCatalog(tags)
    requires tag.NormalizedName() == tag.name
    requires forall k :: 0 <= k < |tags| ==> tags[k].NormalizedName() != tag.name
    ensures NormalCatalog(SortCatalog(tags + [tag]))
  {
    AppendedNormal(tags, tag);
    SortCatalogShape(tags + [tag]);
    PermutedNormal(tags + [tag], SortCatalog(tags + [tag]));
  }

  /** The part of the state that `addCustomTagTapped` works on. */
  datatype TagPicker = TagPicker(catalog: seq<SessionTag>, selected: set<Uuid>, input: String)

  /** The tag `addCustomTagTapped` would add for a normalised name. */
  function CustomTag(newID: Uuid, normalized: String): SessionTag {
    SessionTag(newID, normalized, false)
  }

  /**
   * `addCustomTagTapped`: an input that normalises to nothing changes nothing.
   * Otherwise the first tag with that normalised name is selected, or, when there
   * is none, a custom tag with that name is added, the catalog re-sorted and the
   * new tag selected; either way the input is cleared.
   */
  function AddCustomTag(p: TagPicker, newID: Uuid): TagPicker {
    var normalized := TrimLower(p.input);
    if normalized == [] then p
    else match FirstNamed(p.catalog, normalized)
      case Some(k) => TagPicker(p.catalog, p.selected + {p.catalog[k].id}, [])
      case None => TagPicker(SortCatalog(p.catalog + [CustomTag(newID, normalized)]), p.selected + {newID}, [])
  }

  /**
   * What adding a custom tag does: a blank input is a no-op; otherwise the input is
   * cleared and a tag with the normalised name ends up in the catalog and selected,
   * either the first existing one (the catalog unchanged) or a new custom tag (the
   * catalog gaining exactly that tag).
   */
  lemma AddCustomTagEffect(p: TagPicker, newID: Uuid)
    ensures TrimLower(p.input) == [] ==> AddCustomTag(p, newID) == p
    ensures TrimLower(p.input) != [] ==> AddCustomTag(p, newID).input == []
    ensures TrimLower(p.input) != [] && FirstNamed(p.catalog, TrimLower(p.input)).Some? ==>
      var k := FirstNamed(p.catalog, TrimLower(p.input)).value;
      AddCustomTag(p, newID).catalog == p.catalog
      && AddCustomTag(p, newID).selected == p.selected + {p.catalog[k].id}
    ensures TrimLower(p.input) != [] && FirstNamed(p.catalog, TrimLower(p.input)).None? ==>
      var tag := CustomTag(newID, TrimLower(p.input));
      multiset(AddCustomTag(p, newID).catalog) == multiset(p.catalog) + multiset{tag}
      && tag in AddCustomTag(p, newID).catalog
      && tag.NormalizedName() == tag.name
      && AddCustomTag(p, newID).selected == p.selected + {newID}
  {
    var normalized := TrimLower(p.input);
    if normalized != [] && FirstNamed(p.catalog, normalized).None? {
      var tag := CustomTag(newID, normalized);
      SortCatalogShape(p.catalog + [tag]);
      assert tag in multiset(p.catalog + [tag]);
      TrimLowerIdempotent(p.input);
    }
  }

  /** Adding a custom tag keeps a normal catalog normal. */
  lemma AddCustomTagKeepsNormal(p: TagPicker, newID: Uuid)
    requires NormalCatalog(p.catalog)
    ensures NormalCatalog(AddCustomTag(p, newID).catalog)
  {
    var normalized := TrimLower(p.input);
    if normalized != [] && FirstNamed(p.catalog, normalized).None? {
      TrimLowerIdempotent(p.input);
      AddedCatalogNormal(p.catalog, CustomTag(newID, normalized));
    }
  }

  /**
   * Entering the same name again after adding it changes neither the catalog nor
   * the selection: a name is never added twice to a normal catalog.
   */
  lemma AddCustomTagAgain(p: TagPicker, newID: Uuid, laterID: Uuid)
    requires NormalCatalog(p.catalog)
    ensures AddCustomTag(AddCustomTag(p, newID).(input := p.input), laterID).catalog == AddCustomTag(p, newID).catalog
    ensures AddCustomTag(AddCustomTag(p, newID).(input := p.input), laterID).selected == AddCustomTag(p, newID).selected
  {
    var normalized := TrimLower(p.input);
    var r := AddCustomTag(p, newID);
    var again := r.(input := p.input);
    AddCustomTagEffect(p, newID);
    if normalized != [] && FirstNamed(p.catalog, normalized).None? {
      var tag := CustomTag(newID, normalized);
      AddCustomTagKeepsNormal(p, newID);
      var m :| 0 <= m < |r.catalog| && r.catalog[m] == tag;
      var found := FirstNamed(r.catalog, normalized);
      assert found.Some?;
      assert r.catalog[found.value].name == normalized;
      assert found.value == m;
    }
  }

  /** The feature's state; each method is one case of the reducer. */
  class State {
    var title: String
    var availableTags: seq<SessionTag>
    var selectedTagIDs: set<Uuid>
    var customTagInput: String
    var launchedFromCapture: bool

    predicate Valid()
      reads this
    {
      NormalCatalog(availableTags)
    }

    /** The initial state: the default title, the built-in catalog, nothing selected, an empty tag input. */
    constructor()
      ensures title == DefaultTitle && availableTags == BuiltIns && selectedTagIDs == {}
      ensures customTagInput == [] && !launchedFromCapture
      ensures Valid()
    {
      title := DefaultTitle;
      availableTags := BuiltIns;
      selectedTagIDs := {};
      customTagInput := [];
      launchedFromCapture := false;
      BuiltInsNormalCatalog();
    }

    /** `toggleTag(id)`: flips whether `id` is selected. */
    method ToggleTag(tagID: Uuid) returns (effect: Effect<Delegate>)
      modifies this`selectedTagIDs
      ensures selectedTagIDs == Toggled(old(selectedTagIDs), tagID)
      ensures effect == NoEffect
    {
      if tagID in selectedTagIDs {
        selectedTagIDs := selectedTagIDs - {tagID};
      } else {
        selectedTagIDs := selectedTagIDs + {tagID};
      }
      effect := NoEffect;
    }

    /**
     * `addCustomTagTapped`, with `newID` the id `uuid()` would draw: the catalog,
     * selection and tag input become those `AddCustomTag` gives; a normal catalog
     * stays normal.
     */
    method AddCustomTagTapped(newID: Uuid) returns (effect: Effect<Delegate>)
      modifies this`availableTags, this`selectedTagIDs, this`customTagInput
      ensures TagPicker(availableTags, selectedTagIDs, customTagInput)
        == AddCustomTag(old(TagPicker(availableTags, selectedTagIDs, customTagInput)), newID)
      ensures old(Valid()) ==> Valid()
      ensures effect == NoEffect
    {
      effect := NoEffect;
      ghost var before := TagPicker(availableTags, selectedTagIDs, customTagInput);
      if NormalCatalog(availableTags) {
        AddCustomTagKeepsNormal(before, newID);
      }
      var normalized := TrimLower(customTagInput);
      if normalized == [] {
        return;
      }
      var existing := FirstNamed(availableTags, normalized);
      if existing.Some? {
        selectedTagIDs := selectedTagIDs + {availableTags[existing.value].id};
      } else {
        var tag := SessionTag(newID, normalized, false);
        availableTags := SortCatalog(availableTags + [tag]);
        selectedTagIDs := selectedTagIDs + {tag.id};
      }
      customTagInput := [];
    }

    /**
     * `startTapped`: sends the start title, the selected tags in catalog order and
     * the catalog; changes nothing.
     */
    method StartTapped() returns (effect: Effect<Delegate>)
      ensures effect == Send(StartConfirmed(StartTitle(title), SelectedTags(availableTags, selectedTagIDs), availableTags))
    {
      var tags := Filter(availableTags, IsSelected(selectedTagIDs));
      effect := Send(StartConfirmed(StartTitle(title), tags, availableTags));
    }

    /** `cancelTapped`: sends `cancelled` and changes nothing. */
    method CancelTapped() returns (effect: Effect<Delegate>)
      ensures effect == Send(Cancelled)
    {
      effect := Send(Cancelled);
    }

    /** A delegate action is meant for the parent: nothing changes and nothing is sent. */
    method DelegateReceived(d: Delegate) returns (effect: Effect<Delegate>)
      ensures effect == NoEffect
    {
      effect := NoEffect;
    }
  }
}
