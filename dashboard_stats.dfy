/**
 * The home page of the second React app: the counters and the spending sum
 * shown in its stats cards, what a failed load leaves behind, and the
 * recent-activity list.
 *
 * The records hold only the fields the page reads. Loading is a remote
 * call; its outcome is an input.
 */
module DashboardStats {
  import opened Wrappers
  import Seqs

  datatype Parcel = Parcel(id: string, status: string)
  datatype Order = Order(id: string, status: string)
  datatype Payment = Payment(id: string, status: string, amount: real, description: string)
  datatype User = User(email: string, fullName: string)

  datatype Stats = Stats(totalParcels: nat, activeParcels: nat, pendingOrders: nat, totalSpent: real)

  /** The statuses counted as active: `processing`, `shipped` and `in_transit`. */
  predicate IsActive(p: Parcel)
  {
    p.status in ["processing", "shipped", "in_transit"]
  }

  predicate IsPending(o: Order)
  {
    o.status == "pending"
  }

  predicate IsCompleted(p: Payment)
  {
    p.status == "completed"
  }

  function Amount(p: Payment): real
  {
    p.amount
  }

  /** `amount` for completed payments, 0 for the others. */
  function CompletedAmount(p: Payment): real
  {
    if IsCompleted(p) then p.amount else 0.0
  }

  /** The `stats` object. */
  function StatsOf(parcels: seq<Parcel>, orders: seq<Order>, payments: seq<Payment>): Stats
  {
    Stats(
      |parcels|,
      |Seqs.Filter(parcels, IsActive)|,
      |Seqs.Filter(orders, IsPending)|,
      Seqs.Sum(Seqs.Filter(payments, IsCompleted), Amount))
  }

  /**
   * What the counters mean: every parcel is counted once, the active ones
   * are exactly the parcels with an active status, in order, and so never
   * more than all of them; the pending orders likewise; and the spending
   * sum adds each completed payment's amount and nothing for the others.
   */
  lemma StatsMeaning(parcels: seq<Parcel>, orders: seq<Order>, payments: seq<Payment>)
    ensures var s := StatsOf(parcels, orders, payments);
      && s.totalParcels == |parcels|
      && s.activeParcels <= s.totalParcels
      && (forall p :: p in Seqs.Filter(parcels, IsActive) <==> p in parcels && IsActive(p))
      && s.pendingOrders <= |orders|
      && (forall o :: o in Seqs.Filter(orders, IsPending) <==> o in orders && IsPending(o))
      && s.totalSpent == Seqs.Sum(payments, CompletedAmount)
  {
    Seqs.FilterLength(parcels, IsActive);
    Seqs.FilterLength(orders, IsPending);
    forall p ensures p in Seqs.Filter(parcels, IsActive) <==> p in parcels && IsActive(p) {
      Seqs.FilterMembership(parcels, IsActive, p);
    }
    forall o ensures o in Seqs.Filter(orders, IsPending) <==> o in orders && IsPending(o) {
      Seqs.FilterMembership(orders, IsPending, o);
    }
    Seqs.SumFilter(payments, IsCompleted, Amount);
    var g := Seqs.Where(IsCompleted, Amount);
    forall i | 0 <= i < |payments| ensures g(payments[i]) == CompletedAmount(payments[i]) {
      Seqs.WhereApply(IsCompleted, Amount, payments[i]);
    }
    Seqs.SumCongruent(payments, g, CompletedAmount);
  }

  /** Payments that are not completed never count, whatever their amounts. */
  lemma OnlyCompletedPaymentsCount(payments: seq<Payment>, i: nat, amount: real)
    requires i < |payments| && !IsCompleted(payments[i])
    ensures StatsOf([], [], payments[i := payments[i].(amount := amount)]).totalSpent
         == StatsOf([], [], payments).totalSpent
  {
    var changed := payments[i := payments[i].(amount := amount)];
    StatsMeaning([], [], payments);
    StatsMeaning([], [], changed);
    Seqs.SumReplaceAt(payments, i, changed[i], CompletedAmount);
  }

  /** The page's data cells. */
  datatype PageState = PageState(
    parcels: seq<Parcel>,
    orders: seq<Order>,
    payments: seq<Payment>,
    user: Option<User>,
    isLoading: bool)

  const InitialState := PageState([], [], [], None, true)

  /** What `loadDashboardData` obtains: a failure, or the user and the three lists. */
  datatype LoadOutcome =
    | Failed
    | Loaded(me: User, parcels: seq<Parcel>, orders: seq<Order>, payments: seq<Payment>)

  /** The cells after `loadDashboardData` finishes: the loaded data, or on error empty lists and no user. */
  function AfterLoad(state: PageState, outcome: LoadOutcome): (r: PageState)
    ensures !r.isLoading
    ensures outcome.Failed? ==> r == PageState([], [], [], None, false)
    ensures outcome.Loaded? ==>
      r == PageState(outcome.parcels, outcome.orders, outcome.payments, Some(outcome.me), false)
  {
    match outcome
    case Failed => PageState([], [], [], None, false)
    case Loaded(me, parcels, orders, payments) => PageState(parcels, orders, payments, Some(me), false)
  }

  /** After a failed load every counter and the spending sum are zero. */
  lemma FailedLoadShowsZeros(state: PageState)
    ensures var r := AfterLoad(state, Failed);
      StatsOf(r.parcels, r.orders, r.payments) == Stats(0, 0, 0, 0.0)
  {
  }

  /** The recent-activity list: at most the first three payments, in order. */
  function RecentActivity(payments: seq<Payment>): (r: seq<Payment>)
    ensures |r| <= 3 && |r| <= |payments|
    ensures |payments| >= 3 ==> |r| == 3
    ensures |payments| < 3 ==> r == payments
    ensures forall j :: 0 <= j < |r| ==> r[j] == payments[j]
  {
    Seqs.Take(payments, 3)
  }
}
