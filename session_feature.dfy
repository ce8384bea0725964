/** The session review screen's reducer (`SessionFeature`). */
module SessionFeature {
  import opened Wrappers
  import opened Uuids
  import opened CapturedItems
  import opened Sessions
  import opened Filtering
  import opened ItemFilters
  import opened Effects

  datatype Delegate = Dismiss | CarryForward(items: seq<CapturedItem>) | Export(session: Session)

  /** A binding action writes one bindable field before the reducer runs. */
  datatype Binding =
    | SetSession(session: Session)
    | SetFilter(filter: ItemFilter)
    | SetCompleted(completed: set<Uuid>)
    | SetCarryForward(carryForward: set<Uuid>)

  function HasType(t: ItemType): CapturedItem -> bool {
    (item: CapturedItem) => item.itemType == t
  }

  /** `filteredItems`: all items for `all`, otherwise the items of the selected type in session order. */
  function FilteredItems(items: seq<CapturedItem>, filter: ItemFilter): (r: seq<CapturedItem>)
    ensures filter == All ==> r == items
    ensures filter != All ==> forall x :: x in r <==> x in items && x.itemType == filter.SelectedType().value
  {
    match filter.SelectedType()
    case None => items
    case Some(t) => Filter(items, HasType(t))
  }

  /** The filtered items of one type are those of the concatenated parts, so the session order is kept. */
  lemma FilteredItemsConcat(a: seq<CapturedItem>, b: seq<CapturedItem>, filter: ItemFilter)
    ensures FilteredItems(a + b, filter) == FilteredItems(a, filter) + FilteredItems(b, filter)
  {
    if filter != All {
      FilterConcat(a, b, HasType(filter.SelectedType().value));
    }
  }

  function CarriedOver(carry: set<Uuid>, completed: set<Uuid>): CapturedItem -> bool {
    (item: CapturedItem) => item.id in carry && item.id !in completed
  }

  function Carried(carry: set<Uuid>): CapturedItem -> bool {
    (item: CapturedItem) => item.id in carry
  }

  /** The items that `carryForwardTapped` sends: marked for carrying forward and not completed, in session order. */
  function CarryForwardItems(items: seq<CapturedItem>, carry: set<Uuid>, completed: set<Uuid>): (r: seq<CapturedItem>)
    ensures forall x :: x in r <==> x in items && x.id in carry && x.id !in completed
  {
    Filter(items, CarriedOver(carry, completed))
  }

  /** When no carried item is completed, the completion test is redundant. */
  lemma CarryForwardOfDisjoint(items: seq<CapturedItem>, carry: set<Uuid>, completed: set<Uuid>)
    requires carry !! completed
    ensures CarryForwardItems(items, carry, completed) == Filter(items, Carried(carry))
  {
    FilterSameTest(items, CarriedOver(carry, completed), Carried(carry));
  }

  /** The feature's state; each method is one case of the reducer. */
  class State {
    var session: Session
    var filter: ItemFilter
    var completedIDs: set<Uuid>
    var carryForwardIDs: set<Uuid>

    /** No item is both completed and marked for carrying forward. */
    predicate Valid()
      reads this
    {
      carryForwardIDs !! completedIDs
    }

    /** A review of `session` showing all items, with nothing completed or carried forward. */
    constructor(session: Session)
      ensures this.session == session && filter == All
      ensures completedIDs == {} && carryForwardIDs == {}
      ensures Valid()
    {
      this.session := session;
      filter := All;
      completedIDs := {};
      carryForwardIDs := {};
    }

    /**
     * A binding action: the bound field takes its new value, then the completed
     * items are dropped from the carry-forward set.
     */
    method BindingChanged(b: Binding) returns (effect: Effect<Delegate>)
      modifies this
      ensures session == (if b.SetSession? then b.session else old(session))
      ensures filter == (if b.SetFilter? then b.filter else old(filter))
      ensures completedIDs == (if b.SetCompleted? then b.completed else old(completedIDs))
      ensures carryForwardIDs == (if b.SetCarryForward? then b.carryForward else old(carryForwardIDs)) - completedIDs
      ensures Valid()
      ensures effect == NoEffect
    {
      match b {
        case SetSession(s) => session := s;
        case SetFilter(f) => filter := f;
        case SetCompleted(ids) => completedIDs := ids;
        case SetCarryForward(ids) => carryForwardIDs := ids;
      }
      carryForwardIDs := carryForwardIDs - completedIDs;
      effect := NoEffect;
    }

    /** `carryForwardTapped`: sends the carried-over items and changes nothing. */
    method CarryForwardTapped() returns (effect: Effect<Delegate>)
      ensures effect == Send(CarryForward(CarryForwardItems(session.items, carryForwardIDs, completedIDs)))
    {
      var items := Filter(session.items, CarriedOver(carryForwardIDs, completedIDs));
      effect := Send(CarryForward(items));
    }

    /** `exportTapped`: sends the session for export and changes nothing. */
    method ExportTapped() returns (effect: Effect<Delegate>)
      ensures effect == Send(Export(session))
    {
      effect := Send(Export(session));
    }

    /** `dismissTapped`: sends `dismiss` and changes nothing. */
    method DismissTapped() returns (effect: Effect<Delegate>)
      ensures effect == Send(Dismiss)
    {
      effect := Send(Dismiss);
    }

    /** A delegate action is meant for the parent: nothing changes and nothing is sent. */
    method DelegateReceived(d: Delegate) returns (effect: Effect<Delegate>)
      ensures effect == NoEffect
    {
      effect := NoEffect;
    }
  }
}
