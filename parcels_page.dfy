/**
 * The parcel list of the "My Parcels" page: the parcels shown are those
 * passing the main tab, the status tab and the search box.
 */
module ParcelsPage {
  import opened Wrappers
  import Seqs
  import Text

  /** The fields the filter reads; recipient and destination may be missing. */
  datatype Parcel = Parcel(
    trackingNumber: string,
    recipientName: Option<string>,
    destinationAddress: Option<string>,
    status: string)

  /** The status tabs, `all` first. */
  const ParcelStatusTabs := ["all", "processing", "in_transit", "delivered"]

  /** An optional field matches only when it is present and contains the query. */
  predicate OptionalMatches(field: Option<string>, query: string)
  {
    field.Some? && Text.MatchesIgnoringCase(field.value, query)
  }

  /** `matchesSearch`: tracking number, recipient or destination contains the query, ignoring case. */
  predicate MatchesSearch(parcel: Parcel, query: string)
  {
    || Text.MatchesIgnoringCase(parcel.trackingNumber, query)
    || OptionalMatches(parcel.recipientName, query)
    || OptionalMatches(parcel.destinationAddress, query)
  }

  /** The `filter` callback. */
  function Keep(mainActiveTab: string, statusFilter: string, query: string): Parcel -> bool
  {
    (parcel: Parcel) =>
      if mainActiveTab != "parcels" then false
      else (statusFilter == "all" || parcel.status == statusFilter) && MatchesSearch(parcel, query)
  }

  /** `filteredParcels`. */
  function FilteredParcels(parcels: seq<Parcel>, mainActiveTab: string, statusFilter: string, query: string): seq<Parcel>
  {
    Seqs.Filter(parcels, Keep(mainActiveTab, statusFilter, query))
  }

  /**
   * A parcel is listed exactly when it is one of the parcels, the main tab
   * is `parcels`, it passes the status tab, and it matches the search; the
   * list keeps the parcels' order.
   */
  lemma FilteredParcelsSpec(parcels: seq<Parcel>, mainActiveTab: string, statusFilter: string, query: string)
    ensures forall p :: p in FilteredParcels(parcels, mainActiveTab, statusFilter, query) <==>
      && p in parcels
      && mainActiveTab == "parcels"
      && (statusFilter == "all" || p.status == statusFilter)
      && MatchesSearch(p, query)
    ensures Seqs.IsSubsequence(FilteredParcels(parcels, mainActiveTab, statusFilter, query), parcels)
  {
    var keep := Keep(mainActiveTab, statusFilter, query);
    forall p ensures p in Seqs.Filter(parcels, keep) <==> p in parcels && keep(p) {
      Seqs.FilterMembership(parcels, keep, p);
    }
    Seqs.FilterIsSubsequence(parcels, keep);
  }

  /** Off the parcels tab nothing is listed. */
  lemma OtherTabListsNothing(parcels: seq<Parcel>, mainActiveTab: string, statusFilter: string, query: string)
    requires mainActiveTab != "parcels"
    ensures FilteredParcels(parcels, mainActiveTab, statusFilter, query) == []
  {
    Seqs.FilterKeepsNone(parcels, Keep(mainActiveTab, statusFilter, query));
  }

  /** Under a status tab other than `all`, every listed parcel has that status. */
  lemma StatusTabKeepsThatStatus(parcels: seq<Parcel>, statusFilter: string, query: string)
    requires statusFilter != "all"
    ensures forall i :: 0 <= i < |FilteredParcels(parcels, "parcels", statusFilter, query)| ==>
      FilteredParcels(parcels, "parcels", statusFilter, query)[i].status == statusFilter
  {
    Seqs.FilterSatisfies(parcels, Keep("parcels", statusFilter, query));
  }

  /**
   * The status tabs split the parcels tab's list: no parcel is listed under
   * two different status tabs, and each one listed under a status tab is
   * listed under `all` too.
   */
  lemma StatusTabsSplitAll(parcels: seq<Parcel>, query: string, i: nat, j: nat)
    requires 1 <= i < |ParcelStatusTabs| && 1 <= j < |ParcelStatusTabs| && i != j
    ensures forall p :: p in FilteredParcels(parcels, "parcels", ParcelStatusTabs[i], query) ==>
      p !in FilteredParcels(parcels, "parcels", ParcelStatusTabs[j], query)
    ensures forall p :: p in FilteredParcels(parcels, "parcels", ParcelStatusTabs[i], query) ==>
      p in FilteredParcels(parcels, "parcels", "all", query)
  {
    FilteredParcelsSpec(parcels, "parcels", ParcelStatusTabs[i], query);
    FilteredParcelsSpec(parcels, "parcels", ParcelStatusTabs[j], query);
    FilteredParcelsSpec(parcels, "parcels", "all", query);
  }

  /** On the parcels tab, under `all` and with an empty search, every parcel is listed in its place. */
  lemma NoFilterListsAll(parcels: seq<Parcel>)
    ensures FilteredParcels(parcels, "parcels", "all", "") == parcels
  {
    forall i | 0 <= i < |parcels| ensures Keep("parcels", "all", "")(parcels[i]) {
      Text.EmptyQueryMatches(parcels[i].trackingNumber);
    }
    Seqs.FilterKeepsAll(parcels, Keep("parcels", "all", ""));
  }

  /** A parcel with no recipient and no destination is found only through its tracking number. */
  lemma MissingFieldsNeverMatch(parcel: Parcel, query: string)
    requires parcel.recipientName.None? && parcel.destinationAddress.None?
    ensures MatchesSearch(parcel, query) <==> Text.MatchesIgnoringCase(parcel.trackingNumber, query)
  {
  }

  /** What `loadParcels` obtains: a failure of either call, or the user's parcels. */
  datatype LoadOutcome = Failed | Loaded(parcels: seq<Parcel>)

  /**
   * The parcel list after `loadParcels`: the loaded parcels, or, unlike the
   * store page, the empty list on error, whatever was shown before.
   */
  function AfterLoad(parcels: seq<Parcel>, outcome: LoadOutcome): (r: seq<Parcel>)
    ensures outcome.Loaded? ==> r == outcome.parcels
    ensures outcome.Failed? ==> r == []
  {
    match outcome
    case Failed => []
    case Loaded(loaded) => loaded
  }

  /** After a failed load no parcel is listed, under any tab, status or search. */
  lemma FailedLoadListsNothing(parcels: seq<Parcel>, mainActiveTab: string, statusFilter: string, query: string)
    ensures FilteredParcels(AfterLoad(parcels, Failed), mainActiveTab, statusFilter, query) == []
  {
  }
}
