/**
 * The Angular dashboard: a fixed list of sample parcels, a status tab that
 * filters them, the status badge classes, and the buttons that open modals
 * through the shared modal service.
 */
module AngularDashboard {
  import Seqs
  import Modals

  datatype Parcel = Parcel(trackingId: string, from: string, to: string, date: string, status: string)

  const Tabs := ["All", "In Warehouse", "Sent", "Delivered"]

  const SampleParcels := [
    Parcel("CF-84610357", "Seoul, KR", "Tashkent, Uzb", "Aug 12, 2025", "Delivered"),
    Parcel("CF-19374628", "Beijing, China", "Tashkent, Uzb", "Aug 10, 2025", "Sent"),
    Parcel("CF-55820194", "Istanbul, Turkey", "Tashkent, Uzb", "Aug 08, 2025", "In Warehouse")
  ]

  function HasStatus(status: string): Parcel -> bool
  {
    (p: Parcel) => p.status == status
  }

  /** What `filterParcels` assigns for a tab: everything under `All`, else the parcels with that status. */
  function FilteredFor(parcels: seq<Parcel>, tab: string): seq<Parcel>
  {
    if tab == "All" then parcels else Seqs.Filter(parcels, HasStatus(tab))
  }

  /** Under `All` nothing is hidden; under any other tab exactly the parcels with that status are kept, in order. */
  lemma FilteredForSpec(parcels: seq<Parcel>, tab: string)
    ensures tab == "All" ==> FilteredFor(parcels, tab) == parcels
    ensures tab != "All" ==> forall p :: p in FilteredFor(parcels, tab) <==> p in parcels && p.status == tab
    ensures Seqs.IsSubsequence(FilteredFor(parcels, tab), parcels)
  {
    if tab == "All" {
      Seqs.FilterKeepsAll(parcels, (p: Parcel) => true);
      Seqs.FilterIsSubsequence(parcels, (p: Parcel) => true);
    } else {
      forall p ensures p in FilteredFor(parcels, tab) <==> p in parcels && p.status == tab {
        Seqs.FilterMembership(parcels, HasStatus(tab), p);
      }
      Seqs.FilterIsSubsequence(parcels, HasStatus(tab));
    }
  }

  /** Every tab other than `All` shows one sample parcel: the statuses of the samples are the three other tabs. */
  lemma EachSampleTabShowsOneParcel(k: nat)
    requires 1 <= k < |Tabs|
    ensures |FilteredFor(SampleParcels, Tabs[k])| == 1
    ensures FilteredFor(SampleParcels, Tabs[k])[0].status == Tabs[k]
  {
    var s := SampleParcels;
    var p := HasStatus(Tabs[k]);
    assert s[..2][..1] == s[..1] && s[..1][..0] == [] && s[..3] == s;
    assert Seqs.Filter(s[..1], p) == (if p(s[0]) then [s[0]] else []);
    assert Seqs.Filter(s[..2], p) == Seqs.Filter(s[..1], p) + (if p(s[1]) then [s[1]] else []);
    assert Seqs.Filter(s, p) == Seqs.Filter(s[..2], p) + (if p(s[2]) then [s[2]] else []);
  }

  /** `getStatusClass`. */
  function StatusClass(status: string): (r: string)
    ensures status == "Delivered" ==> r == "bg-green-100 text-green-800"
    ensures status == "Sent" ==> r == "bg-blue-100 text-blue-800"
    ensures status == "In Warehouse" ==> r == "bg-orange-100 text-orange-800"
    ensures status !in {"Delivered", "Sent", "In Warehouse"} ==> r == "bg-slate-100 text-slate-800"
  {
    match status
    case "Delivered" => "bg-green-100 text-green-800"
    case "Sent" => "bg-blue-100 text-blue-800"
    case "In Warehouse" => "bg-orange-100 text-orange-800"
    case _ => "bg-slate-100 text-slate-800"
  }

  /** Each of the three known statuses gets its own class, and none gets the default's. */
  lemma StatusClassesDistinct(a: string, b: string)
    requires a in {"Delivered", "Sent", "In Warehouse"} && b in {"Delivered", "Sent", "In Warehouse"}
    ensures StatusClass(a) != "bg-slate-100 text-slate-800"
    ensures a != b ==> StatusClass(a) != StatusClass(b)
  {
  }

  class DashboardComponent {
    var activeTab: string
    const parcels: seq<Parcel>
    var filteredParcels: seq<Parcel>
    const modals: Modals.ModalService<Parcel>

    /** The filtered list matches the active tab. */
    predicate Consistent()
      reads this
    {
      filteredParcels == FilteredFor(parcels, activeTab)
    }

    /** The field initialisers: tab `All`, the sample parcels, and the filtered list aliasing them. */
    constructor (modals: Modals.ModalService<Parcel>)
      ensures activeTab == "All" && parcels == SampleParcels && filteredParcels == SampleParcels
      ensures this.modals == modals
    {
      activeTab := "All";
      parcels := SampleParcels;
      filteredParcels := SampleParcels;
      this.modals := modals;
    }

    method FilterParcels()
      modifies this
      ensures Consistent() && activeTab == old(activeTab)
    {
      if activeTab == "All" {
        filteredParcels := parcels;
      } else {
        filteredParcels := Seqs.Filter(parcels, HasStatus(activeTab));
      }
    }

    method NgOnInit()
      modifies this
      ensures Consistent() && activeTab == old(activeTab)
    {
      FilterParcels();
    }

    method SetActiveTab(tab: string)
      modifies this
      ensures activeTab == tab && Consistent()
    {
      activeTab := tab;
      FilterParcels();
    }

    method OpenParcelModal()
      requires modals.Valid()
      modifies modals
      ensures modals.Valid() && modals.Current() == Modals.Opened(old(modals.Current()), Modals.ParcelModal, Modals.Undefined)
    {
      modals.Open(Modals.ParcelModal, Modals.Undefined);
    }

    method OpenOrderModal()
      requires modals.Valid()
      modifies modals
      ensures modals.Valid() && modals.Current() == Modals.Opened(old(modals.Current()), Modals.OrderModal, Modals.Undefined)
    {
      modals.Open(Modals.OrderModal, Modals.Undefined);
    }

    /** The smart-status modal receives the parcel as its payload. */
    method OpenSmartStatus(parcel: Parcel)
      requires modals.Valid()
      modifies modals
      ensures modals.Valid() && modals.Current() == old(modals.Current()).(smartStatus := Modals.Present(parcel))
    {
      modals.Open(Modals.SmartStatusModal, Modals.Present(parcel));
    }
  }

  /** After `ngOnInit` with the default tab every sample parcel is shown. */
  method InitialDashboardShowsAll(modals: Modals.ModalService<Parcel>) returns (d: DashboardComponent)
    ensures d.filteredParcels == SampleParcels
  {
    d := new DashboardComponent(modals);
    d.NgOnInit();
  }
}
