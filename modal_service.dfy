/**
 * The Angular app's modal coordinator: four `BehaviorSubject` cells, one per
 * modal, written by `open` and `close`. Three cells hold a visibility flag;
 * the smart-status cell holds the parcel to show, or `null`.
 *
 * A subject emits on every `next`, even when the value does not change, and
 * its subscribers see each emission; so the class keeps, per cell, the
 * sequence of values emitted so far, whose last element is the cell's
 * current value.
 */
module Modals {

  /** The smart-status cell's value: `null`, `undefined` (an `open` without data) or a payload. */
  datatype Payload<T> = Null | Undefined | Present(value: T)

  /** The current values of the four cells. */
  datatype Cells<T> = Cells(parcel: bool, order: bool, smartStatus: Payload<T>, addFunds: bool)

  const ParcelModal := "parcelModal"
  const OrderModal := "orderModal"
  const SmartStatusModal := "smartStatusModal"
  const AddFundsModal := "addFundsModal"

  predicate IsKnown(modalId: string)
  {
    modalId == ParcelModal || modalId == OrderModal || modalId == SmartStatusModal || modalId == AddFundsModal
  }

  function InitialCells<T>(): Cells<T>
  {
    Cells(false, false, Null, false)
  }

  /** The cell values after `open(modalId, data)`: only the named cell is written. */
  function Opened<T>(c: Cells<T>, modalId: string, data: Payload<T>): (r: Cells<T>)
    ensures r.parcel == (if modalId == ParcelModal then true else c.parcel)
    ensures r.order == (if modalId == OrderModal then true else c.order)
    ensures r.smartStatus == (if modalId == SmartStatusModal then data else c.smartStatus)
    ensures r.addFunds == (if modalId == AddFundsModal then true else c.addFunds)
  {
    if modalId == ParcelModal then c.(parcel := true)
    else if modalId == OrderModal then c.(order := true)
    else if modalId == SmartStatusModal then c.(smartStatus := data)
    else if modalId == AddFundsModal then c.(addFunds := true)
    else c
  }

  /** The cell values after `close(modalId)`: the named cell is back at its initial value. */
  function Closed<T>(c: Cells<T>, modalId: string): (r: Cells<T>)
    ensures r.parcel == (if modalId == ParcelModal then false else c.parcel)
    ensures r.order == (if modalId == OrderModal then false else c.order)
    ensures r.smartStatus == (if modalId == SmartStatusModal then Null else c.smartStatus)
    ensures r.addFunds == (if modalId == AddFundsModal then false else c.addFunds)
  {
    if modalId == ParcelModal then c.(parcel := false)
    else if modalId == OrderModal then c.(order := false)
    else if modalId == SmartStatusModal then c.(smartStatus := Null)
    else if modalId == AddFundsModal then c.(addFunds := false)
    else c
  }

  /** Unknown ids change nothing. */
  lemma UnknownIdsChangeNothing<T>(c: Cells<T>, modalId: string, data: Payload<T>)
    requires !IsKnown(modalId)
    ensures Opened(c, modalId, data) == c && Closed(c, modalId) == c
  {
  }

  /** Opening twice is opening once, and so is closing. */
  lemma OpenCloseIdempotent<T>(c: Cells<T>, modalId: string, data: Payload<T>)
    ensures Opened(Opened(c, modalId, data), modalId, data) == Opened(c, modalId, data)
    ensures Closed(Closed(c, modalId), modalId) == Closed(c, modalId)
  {
  }

  /** Closing undoes opening: from the initial state, open then close restores it. */
  lemma OpenThenCloseRestores<T>(modalId: string, data: Payload<T>)
    ensures Closed(Opened(InitialCells<T>(), modalId, data), modalId) == InitialCells<T>()
  {
  }

  /** Each call touches one cell: operations on different modals commute. */
  lemma DifferentModalsCommute<T>(c: Cells<T>, a: string, b: string, data: Payload<T>)
    requires a != b
    ensures Closed(Opened(c, a, data), b) == Opened(Closed(c, b), a, data)
  {
  }

  /** What one call emits on a cell: the value when the id names the cell, nothing otherwise. */
  function EmittedIf<V>(fires: bool, value: V): seq<V>
  {
    if fires then [value] else []
  }

  /** The service. Each field holds the values its subject has emitted, oldest first. */
  class ModalService<T> {
    var parcelEmitted: seq<bool>
    var orderEmitted: seq<bool>
    var smartStatusEmitted: seq<Payload<T>>
    var addFundsEmitted: seq<bool>

    /** A `BehaviorSubject` always has a current value. */
    predicate Valid()
      reads this
    {
      |parcelEmitted| >= 1 && |orderEmitted| >= 1 && |smartStatusEmitted| >= 1 && |addFundsEmitted| >= 1
    }

    /** The value each observable hands to a new subscriber: the latest emission. */
    function Current(): Cells<T>
      requires Valid()
      reads this
    {
      Cells(parcelEmitted[|parcelEmitted| - 1], orderEmitted[|orderEmitted| - 1],
            smartStatusEmitted[|smartStatusEmitted| - 1], addFundsEmitted[|addFundsEmitted| - 1])
    }

    constructor ()
      ensures Valid() && Current() == InitialCells<T>()
      ensures parcelEmitted == [false] && orderEmitted == [false] && smartStatusEmitted == [Null] && addFundsEmitted == [false]
    {
      parcelEmitted := [false];
      orderEmitted := [false];
      smartStatusEmitted := [Null];
      addFundsEmitted := [false];
    }

    /** `open(modalId, data)`; an omitted `data` is passed as `Undefined`. */
    method Open(modalId: string, data: Payload<T>)
      requires Valid()
      modifies this
      ensures Valid() && Current() == Opened(old(Current()), modalId, data)
      ensures parcelEmitted == old(parcelEmitted) + EmittedIf(modalId == ParcelModal, true)
      ensures orderEmitted == old(orderEmitted) + EmittedIf(modalId == OrderModal, true)
      ensures smartStatusEmitted == old(smartStatusEmitted) + EmittedIf(modalId == SmartStatusModal, data)
      ensures addFundsEmitted == old(addFundsEmitted) + EmittedIf(modalId == AddFundsModal, true)
    {
      if modalId == ParcelModal { parcelEmitted := parcelEmitted + [true]; }
      if modalId == OrderModal { orderEmitted := orderEmitted + [true]; }
      if modalId == SmartStatusModal { smartStatusEmitted := smartStatusEmitted + [data]; }
      if modalId == AddFundsModal { addFundsEmitted := addFundsEmitted + [true]; }
    }

    /** `close(modalId)`. */
    method Close(modalId: string)
      requires Valid()
      modifies this
      ensures Valid() && Current() == Closed(old(Current()), modalId)
      ensures parcelEmitted == old(parcelEmitted) + EmittedIf(modalId == ParcelModal, false)
      ensures orderEmitted == old(orderEmitted) + EmittedIf(modalId == OrderModal, false)
      ensures smartStatusEmitted == old(smartStatusEmitted) + EmittedIf(modalId == SmartStatusModal, Null)
      ensures addFundsEmitted == old(addFundsEmitted) + EmittedIf(modalId == AddFundsModal, false)
    {
      if modalId == ParcelModal { parcelEmitted := parcelEmitted + [false]; }
      if modalId == OrderModal { orderEmitted := orderEmitted + [false]; }
      if modalId == SmartStatusModal { smartStatusEmitted := smartStatusEmitted + [Null]; }
      if modalId == AddFundsModal { addFundsEmitted := addFundsEmitted + [false]; }
    }
  }
}
