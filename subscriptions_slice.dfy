/** The subscriptions store slice: the current page of subscriptions, the
    loading and error flags of the request in flight, the filters and the
    pagination, changed in place by one reducer per action. */
module SubscriptionsSlice {
  import opened Wrappers
  import opened Types
  import SubscriptionsApi
  import Seqs

  const InitialFilters: SubscriptionFilters :=
    SubscriptionFilters("", [], [], [], PriceRange(0, 10000), "name", "asc")

  datatype State = State(
    items: seq<Subscription>,
    loading: bool,
    error: Option<string>,
    filters: SubscriptionFilters,
    selectedId: Option<string>,
    totalCount: int,
    currentPage: int,
    pageSize: int)

  const InitialState: State := State([], false, None, InitialFilters, None, 0, 1, 20)

  /** The initial filters restrict nothing but the price, which must lie in
      0..10000 minor units, and sort by name ascending. */
  lemma InitialFiltersAdmit(s: Subscription)
    ensures SubscriptionsApi.Admits(InitialFilters, s) <==> 0 <= s.price <= 10000
    ensures InitialFilters.sortBy in DeclaredSortKeys && InitialFilters.sortOrder in DeclaredSortOrders
  {
  }

  /** `items[findIndex(id)] = updated` when some item has the id: the list
      keeps its length and its ids, the first item with the id is replaced
      and nothing else changes. */
  function ReplaceFirstById(items: seq<Subscription>, updated: Subscription): (r: seq<Subscription>)
    ensures |r| == |items|
    ensures forall i :: 0 <= i < |items| ==> r[i].id == items[i].id
    ensures updated in r <==> updated in items || exists i :: 0 <= i < |items| && items[i].id == updated.id
    ensures forall i :: 0 <= i < |items| && r[i] != items[i] ==>
      r[i] == updated && forall j :: 0 <= j < i ==> items[j].id != updated.id
    ensures forall k :: 0 <= k < |items| && items[k].id == updated.id ==>
      (forall j :: 0 <= j < k ==> items[j].id != updated.id) ==> r[k] == updated
  {
    match SubscriptionsApi.IndexOfId(items, updated.id)
    case None => items
    case Some(k) =>
      assert items[k := updated][k] == updated;
      items[k := updated]
  }

  /** `items.filter(item => item.id !== id)`: every item with the id goes,
      the others stay, each as often as before, in order. */
  function RemoveAllById(items: seq<Subscription>, id: string): (r: seq<Subscription>)
    ensures forall x :: multiset(r)[x] == if x.id != id then multiset(items)[x] else 0
    ensures Seqs.IsSubsequence(r, items)
  {
    if items == [] then []
    else
      var rest := RemoveAllById(items[1..], id);
      assert items == [items[0]] + items[1..];
      if items[0].id != id then
        assert ([items[0]] + rest)[1..] == rest;
        [items[0]] + rest
      else rest
  }

  /** Deleting a subscription just created under a fresh id gives back the
      list before the creation. */
  lemma {:induction false} CreateThenDeleteRestores(items: seq<Subscription>, s: Subscription)
    requires forall i :: 0 <= i < |items| ==> items[i].id != s.id
    ensures RemoveAllById([s] + items, s.id) == items
  {
    assert ([s] + items)[1..] == items;
    RemoveKeepsFresh(items, s.id);
  }

  lemma {:induction false} RemoveKeepsFresh(items: seq<Subscription>, id: string)
    requires forall i :: 0 <= i < |items| ==> items[i].id != id
    ensures RemoveAllById(items, id) == items
    decreases |items|
  {
    if items != [] {
      RemoveKeepsFresh(items[1..], id);
      assert [items[0]] + items[1..] == items;
    }
  }

  /** An update whose id is in the list, followed by a delete of that id,
      leaves the same list as the delete alone. */
  lemma {:induction false} DeleteAfterUpdate(items: seq<Subscription>, updated: Subscription)
    ensures RemoveAllById(ReplaceFirstById(items, updated), updated.id) == RemoveAllById(items, updated.id)
  {
    var r := ReplaceFirstById(items, updated);
    SameIdsSameRemoval(r, items, updated.id);
  }

  lemma {:induction false} SameIdsSameRemoval(a: seq<Subscription>, b: seq<Subscription>, id: string)
    requires |a| == |b|
    requires forall i :: 0 <= i < |a| ==> a[i].id == b[i].id && (a[i] == b[i] || a[i].id == id)
    ensures RemoveAllById(a, id) == RemoveAllById(b, id)
    decreases |a|
  {
    if a != [] {
      SameIdsSameRemoval(a[1..], b[1..], id);
    }
  }

  class Slice {
    var items: seq<Subscription>
    var loading: bool
    var error: Option<string>
    var filters: SubscriptionFilters
    var selectedId: Option<string>
    var totalCount: int
    var currentPage: int
    var pageSize: int

    function Snapshot(): State
      reads this
    {
      State(items, loading, error, filters, selectedId, totalCount, currentPage, pageSize)
    }

    /** While a request is in flight no error is shown. */
    ghost predicate Valid()
      reads this
    {
      loading ==> error.None?
    }

    constructor ()
      ensures Snapshot() == InitialState && Valid()
    {
      items, loading, error, filters := [], false, None, InitialFilters;
      selectedId, totalCount, currentPage, pageSize := None, 0, 1, 20;
    }

    /** `fetchSubscriptionsRequested`, and likewise the create, update and
      delete requests: the payload is left to the side effect. */
    method Requested()
      modifies this
      ensures Snapshot() == old(Snapshot()).(loading := true, error := None)
      ensures Valid()
    {
      loading, error := true, None;
    }

    /** Every `...Failed` action. */
    method Failed(message: string)
      modifies this
      ensures Snapshot() == old(Snapshot()).(loading := false, error := Some(message))
      ensures Valid()
    {
      loading, error := false, Some(message);
    }

    method FetchSucceeded(subscriptions: seq<Subscription>, total: int, page: int)
      modifies this
      ensures Snapshot() == old(Snapshot()).(loading := false, items := subscriptions,
                                             totalCount := total, currentPage := page)
      ensures Valid()
    {
      loading, items, totalCount, currentPage := false, subscriptions, total, page;
    }

    /** The new subscription goes in front and the count grows by one. */
    method CreateSucceeded(s: Subscription)
      modifies this
      ensures Snapshot() == old(Snapshot()).(loading := false, items := [s] + old(items),
                                             totalCount := old(totalCount) + 1)
      ensures Valid()
    {
      loading := false;
      items := [s] + items;
      totalCount := totalCount + 1;
    }

    method UpdateSucceeded(updated: Subscription)
      modifies this
      ensures Snapshot() == old(Snapshot()).(loading := false, items := ReplaceFirstById(old(items), updated))
      ensures Valid()
    {
      loading := false;
      items := ReplaceFirstById(items, updated);
    }

    /** The count drops by one whether or not the id is on this page. */
    method DeleteSucceeded(id: string)
      modifies this
      ensures Snapshot() == old(Snapshot()).(loading := false, items := RemoveAllById(old(items), id),
                                             totalCount := old(totalCount) - 1)
      ensures Valid()
    {
      loading := false;
      items := RemoveAllById(items, id);
      totalCount := totalCount - 1;
    }

    method SetFilters(patch: FiltersPatch)
      modifies this
      ensures Snapshot() == old(Snapshot()).(filters := MergeFilters(old(filters), patch))
    {
      filters := MergeFilters(filters, patch);
    }

    method ClearFilters()
      modifies this
      ensures Snapshot() == old(Snapshot()).(filters := InitialFilters)
    {
      filters := InitialFilters;
    }

    method SetSelectedSubscription(id: Option<string>)
      modifies this
      ensures Snapshot() == old(Snapshot()).(selectedId := id)
    {
      selectedId := id;
    }

    method SetCurrentPage(page: int)
      modifies this
      ensures Snapshot() == old(Snapshot()).(currentPage := page)
    {
      currentPage := page;
    }

    method ClearError()
      modifies this
      ensures Snapshot() == old(Snapshot()).(error := None)
      ensures old(Valid()) ==> Valid()
    {
      error := None;
    }
  }
}
