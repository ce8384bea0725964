/**
 * The live session window's reducer (`SessionWindowFeature`). Its state holds a
 * session of the document model: a title, tags and items without a mode.
 */
module SessionWindowFeature {
  import opened Wrappers
  import opened Text
  import opened Uuids
  import opened DateTime
  import opened Sorting
  import opened Filtering
  import opened CapturedItems
  import opened SessionTags
  import opened SessionCodec
  import opened ItemFilters
  import opened Effects

  datatype Delegate =
    | Capture(text: String)
    | Close
    | RemoveTag(tagID: Uuid)
    | AddTagByID(tagID: Uuid)
    | AddCustomTag(name: String)

  /** Newest first: `a` may precede `b` when it is not older. */
  predicate NewerOrSame(a: DocItem, b: DocItem) {
    NotAfter(b.timestamp, a.timestamp)
  }

  lemma NewerOrSameTotalPreorder()
    ensures IsTotalPreorder(NewerOrSame)
  {
    TimestampLeTotalPreorder();
    forall a: DocItem, b: DocItem ensures NewerOrSame(a, b) || NewerOrSame(b, a) {
      assert TimestampLe(b, a) || TimestampLe(a, b);
    }
    forall a: DocItem, b: DocItem, c: DocItem | NewerOrSame(a, b) && NewerOrSame(b, c)
      ensures NewerOrSame(a, c)
    {
      assert TimestampLe(c, b) && TimestampLe(b, a);
    }
  }

  function IsOfType(t: ItemType): DocItem -> bool {
    (item: DocItem) => item.itemType == t
  }

  /** `filteredItems`: the items newest first, then kept by type unless the filter is `all`. */
  function FilteredItems(items: seq<DocItem>, filter: ItemFilter): seq<DocItem> {
    var source := SortBy(items, NewerOrSame);
    match filter.SelectedType()
    case None => source
    case Some(t) => Filter(source, IsOfType(t))
  }

  /**
   * The filtered items are newest first; they are exactly the session's items of
   * the selected type, and for `all` a rearrangement of all of them.
   */
  lemma FilteredItemsOrdered(items: seq<DocItem>, filter: ItemFilter)
    ensures forall i, j :: 0 <= i < j < |FilteredItems(items, filter)| ==>
      NotAfter(FilteredItems(items, filter)[j].timestamp, FilteredItems(items, filter)[i].timestamp)
    ensures forall x :: x in FilteredItems(items, filter) <==>
      x in items && (filter == All || x.itemType == filter.SelectedType().value)
    ensures filter == All ==> multiset(FilteredItems(items, filter)) == multiset(items)
  {
    var source := SortBy(items, NewerOrSame);
    NewerOrSameTotalPreorder();
    SortBySorted(items, NewerOrSame);
    forall x ensures x in source <==> x in items {
      assert x in source <==> x in multiset(source);
    }
    if filter != All {
      FilterSorted(source, IsOfType(filter.SelectedType().value), NewerOrSame);
    }
  }

  function NotAmong(ids: set<Uuid>): SessionTag -> bool {
    (tag: SessionTag) => tag.id !in ids
  }

  /** The ids of `tags`. */
  function TagIds(tags: seq<SessionTag>): (r: set<Uuid>)
    ensures forall id :: id in r <==> exists k :: 0 <= k < |tags| && tags[k].id == id
  {
    set k | 0 <= k < |tags| :: tags[k].id
  }

  /** `suggestedTags`: the catalog tags whose ids are not on the session, in catalog order. */
  function SuggestedTags(catalog: seq<SessionTag>, sessionTags: seq<SessionTag>): (r: seq<SessionTag>)
    ensures forall t :: t in r <==> t in catalog && forall k :: 0 <= k < |sessionTags| ==> sessionTags[k].id != t.id
  {
    Filter(catalog, NotAmong(TagIds(sessionTags)))
  }

  /** Suggestions keep the catalog's order: the suggestions of a split catalog are those of its parts. */
  lemma SuggestedTagsConcat(a: seq<SessionTag>, b: seq<SessionTag>, sessionTags: seq<SessionTag>)
    ensures SuggestedTags(a + b, sessionTags) == SuggestedTags(a, sessionTags) + SuggestedTags(b, sessionTags)
  {
    FilterConcat(a, b, NotAmong(TagIds(sessionTags)));
  }

  /** The feature's state; each method is one case of the reducer. */
  class State {
    var session: DocSession
    var availableTags: seq<SessionTag>
    var inputText: String
    var customTagInput: String
    var filter: ItemFilter

    /** A window on `session` with the tag catalog `availableTags`, empty inputs and no filter. */
    constructor(session: DocSession, availableTags: seq<SessionTag>)
      ensures this.session == session && this.availableTags == availableTags
      ensures inputText == [] && customTagInput == [] && filter == All
    {
      this.session := session;
      this.availableTags := availableTags;
      inputText := [];
      customTagInput := [];
      filter := All;
    }

    /**
     * `submitTapped`: a blank input changes nothing and sends nothing; otherwise
     * the input is cleared and its trimmed text is sent as `capture`.
     */
    method SubmitTapped() returns (effect: Effect<Delegate>)
      modifies this`inputText
      ensures match Submission(old(inputText))
        case None => inputText == old(inputText) && effect == NoEffect
        case Some(text) => inputText == [] && effect == Send(Capture(text))
    {
      var submitted := Submission(inputText);
      if submitted.None? {
        return NoEffect;
      }
      inputText := [];
      effect := Send(Capture(submitted.value));
    }

    /** `closeTapped`: sends `close` and changes nothing. */
    method CloseTapped() returns (effect: Effect<Delegate>)
      ensures effect == Send(Close)
    {
      effect := Send(Close);
    }

    /** `removeTagTapped(id)`: forwards the id and changes nothing. */
    method RemoveTagTapped(tagID: Uuid) returns (effect: Effect<Delegate>)
      ensures effect == Send(RemoveTag(tagID))
    {
      effect := Send(RemoveTag(tagID));
    }

    /** `addSuggestedTagTapped(id)`: forwards the id and changes nothing. */
    method AddSuggestedTagTapped(tagID: Uuid) returns (effect: Effect<Delegate>)
      ensures effect == Send(AddTagByID(tagID))
    {
      effect := Send(AddTagByID(tagID));
    }

    /**
     * `addCustomTagTapped`: a blank tag input changes nothing and sends nothing;
     * otherwise it is cleared and its trimmed text is sent as `addCustomTag`.
     */
    method AddCustomTagTapped() returns (effect: Effect<Delegate>)
      modifies this`customTagInput
      ensures match Submission(old(customTagInput))
        case None => customTagInput == old(customTagInput) && effect == NoEffect
        case Some(tag) => customTagInput == [] && effect == Send(AddCustomTag(tag))
    {
      var submitted := Submission(customTagInput);
      if submitted.None? {
        return NoEffect;
      }
      customTagInput := [];
      effect := Send(AddCustomTag(submitted.value));
    }

    /** A delegate action is meant for the parent: nothing changes and nothing is sent. */
    method DelegateReceived(d: Delegate) returns (effect: Effect<Delegate>)
      ensures effect == NoEffect
    {
      effect := NoEffect;
    }
  }
}
