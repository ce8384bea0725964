/** The item-type filter shared by the session and session-window features (`State.Filter`). */
module ItemFilters {
  import opened Wrappers
  import opened Text
  import opened CapturedItems

  datatype ItemFilter = All | TodoFilter | NextFilter | NoteFilter | LinkFilter {

    /** The item type the filter keeps, or nothing for `all`. */
    function SelectedType(): (r: Option<ItemType>)
      ensures r.None? <==> this == All
    {
      match this
      case All => None
      case TodoFilter => Some(Todo)
      case NextFilter => Some(Next)
      case NoteFilter => Some(Note)
      case LinkFilter => Some(Link)
    }

    /** The filter's label. */
    function Title(): String {
      match this
      case All => "All"
      case TodoFilter => "@todo"
      case NextFilter => "@next"
      case NoteFilter => "@note"
      case LinkFilter => "@link"
    }
  }

  /** Each type's filter is labelled with the type's capture prefix. */
  lemma FilterTitles(f: ItemFilter)
    ensures f.SelectedType().Some? ==> f.Title() == f.SelectedType().value.Prefix()
    ensures f == All ==> f.Title() == "All"
  {
  }

  /** Every item type has exactly one filter. */
  function FilterFor(t: ItemType): (r: ItemFilter)
    ensures r.SelectedType() == Some(t)
    ensures forall f: ItemFilter :: f.SelectedType() == Some(t) ==> f == r
  {
    match t
    case Todo => TodoFilter
    case Next => NextFilter
    case Note => NoteFilter
    case Link => LinkFilter
  }
}
