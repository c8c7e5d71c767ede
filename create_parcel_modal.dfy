/**
 * The parcel declaration form of the react2 app: a list of declared items,
 * edited by position, whose value and weight totals go into the created
 * parcel.
 */
module CreateParcelModal {
  import opened Wrappers
  import Seqs
  import ItemLists
  import FormInputs

  datatype ParcelItem = ParcelItem(
    productName: string,
    category: string,
    quantity: int,
    price: real,
    weight: real,
    dimensions: string)

  /** The item the form starts with and `addItem` appends. */
  const BlankItem := ParcelItem("", "", 1, 0.0, 0.0, "")

  datatype ParcelData = ParcelData(
    trackingNumber: string,
    storeName: string,
    originAddress: string,
    destinationAddress: string,
    recipientName: string,
    recipientPhone: string,
    estimatedDelivery: string,
    items: seq<ParcelItem>,
    notes: string)

  /** The form's state when it is first shown and after every successful create. */
  const InitialData := ParcelData("", "", "", "", "", "", "", [BlankItem], "")

  /** `updateItem(index, field, value)`: one field name with the value its input produced. */
  datatype ItemEdit =
    | ProductName(name: string)
    | Category(category: string)
    | Quantity(quantity: int)
    | Price(price: real)
    | Weight(weight: real)
    | Dimensions(dimensions: string)

  /** `{ ...item, [field]: value }`: the named field takes the value, the others stay. */
  function Edited(item: ParcelItem, edit: ItemEdit): (r: ParcelItem)
    ensures r.productName == (if edit.ProductName? then edit.name else item.productName)
    ensures r.category == (if edit.Category? then edit.category else item.category)
    ensures r.quantity == (if edit.Quantity? then edit.quantity else item.quantity)
    ensures r.price == (if edit.Price? then edit.price else item.price)
    ensures r.weight == (if edit.Weight? then edit.weight else item.weight)
    ensures r.dimensions == (if edit.Dimensions? then edit.dimensions else item.dimensions)
  {
    match edit
    case ProductName(s) => item.(productName := s)
    case Category(s) => item.(category := s)
    case Quantity(q) => item.(quantity := q)
    case Price(p) => item.(price := p)
    case Weight(w) => item.(weight := w)
    case Dimensions(s) => item.(dimensions := s)
  }

  /** The quantity input: `parseInt(value) || 1`. */
  function QuantityInput(parsed: Option<int>): (e: ItemEdit)
    ensures e.Quantity? && e.quantity != 0
    ensures parsed.None? || parsed.value == 0 ==> e.quantity == 1
    ensures parsed.Some? && parsed.value != 0 ==> e.quantity == parsed.value
  {
    Quantity(FormInputs.IntOr(parsed, 1))
  }

  /** The price input: `parseFloat(value) || 0`. */
  function PriceInput(parsed: Option<real>): (e: ItemEdit)
    ensures e.Price? && e.price == (if parsed.Some? then parsed.value else 0.0)
  {
    Price(FormInputs.RealOr(parsed, 0.0))
  }

  /** The weight input: `parseFloat(value) || 0`. */
  function WeightInput(parsed: Option<real>): (e: ItemEdit)
    ensures e.Weight? && e.weight == (if parsed.Some? then parsed.value else 0.0)
  {
    Weight(FormInputs.RealOr(parsed, 0.0))
  }

  function ItemsAfterAdd(items: seq<ParcelItem>): seq<ParcelItem>
  {
    ItemLists.Appended(items, BlankItem)
  }

  function ItemsAfterRemove(items: seq<ParcelItem>, index: nat): seq<ParcelItem>
  {
    ItemLists.RemovedKeepingOne(items, index)
  }

  function ItemsAfterUpdate(items: seq<ParcelItem>, index: nat, edit: ItemEdit): seq<ParcelItem>
  {
    ItemLists.UpdatedAt(items, index, item => Edited(item, edit))
  }

  function ValueOf(item: ParcelItem): real
  {
    item.price * item.quantity as real
  }

  function WeightOf(item: ParcelItem): real
  {
    item.weight * item.quantity as real
  }

  /** `total_value`: Σ price × quantity. */
  function TotalValue(items: seq<ParcelItem>): real
  {
    Seqs.Sum(items, ValueOf)
  }

  /** `total_weight`: Σ weight × quantity. */
  function TotalWeight(items: seq<ParcelItem>): real
  {
    Seqs.Sum(items, WeightOf)
  }

  /** What `Parcel.create` receives: the form data, both totals and status `pending`. */
  datatype ParcelPayload = ParcelPayload(data: ParcelData, totalValue: real, totalWeight: real, status: string)

  function Payload(data: ParcelData): (p: ParcelPayload)
    ensures p.data == data && p.status == "pending"
    ensures p.totalValue == TotalValue(data.items) && p.totalWeight == TotalWeight(data.items)
  {
    ParcelPayload(data, TotalValue(data.items), TotalWeight(data.items), "pending")
  }

  /** The form starts with exactly one item, and that item is blank. */
  lemma InitialForm()
    ensures |InitialData.items| == 1
    ensures InitialData.items[0] == ParcelItem("", "", 1, 0.0, 0.0, "")
    ensures TotalValue(InitialData.items) == 0.0 && TotalWeight(InitialData.items) == 0.0
  {
    Seqs.SumSingleton(BlankItem, ValueOf);
    Seqs.SumSingleton(BlankItem, WeightOf);
  }

  /** Adding a blank item leaves both totals unchanged. */
  lemma AddItemKeepsTotals(items: seq<ParcelItem>)
    ensures TotalValue(ItemsAfterAdd(items)) == TotalValue(items)
    ensures TotalWeight(ItemsAfterAdd(items)) == TotalWeight(items)
  {
    ItemLists.SumAppended(items, BlankItem, ValueOf);
    ItemLists.SumAppended(items, BlankItem, WeightOf);
  }

  /** A removal that happens takes exactly the removed item out of both totals; a refused one changes nothing. */
  lemma RemoveItemTotals(items: seq<ParcelItem>, index: nat)
    requires index < |items|
    ensures |items| > 1 ==> TotalValue(ItemsAfterRemove(items, index)) == TotalValue(items) - ValueOf(items[index])
    ensures |items| > 1 ==> TotalWeight(ItemsAfterRemove(items, index)) == TotalWeight(items) - WeightOf(items[index])
    ensures |items| == 1 ==> ItemsAfterRemove(items, index) == items
  {
    if |items| > 1 {
      ItemLists.SumRemovedKeepingOne(items, index, ValueOf);
      ItemLists.SumRemovedKeepingOne(items, index, WeightOf);
    }
  }

  /** Editing one item changes the totals by that item's change only; text fields leave them as they were. */
  lemma UpdateItemTotals(items: seq<ParcelItem>, index: nat, edit: ItemEdit)
    requires index < |items|
    ensures TotalValue(ItemsAfterUpdate(items, index, edit)) == TotalValue(items) - ValueOf(items[index]) + ValueOf(Edited(items[index], edit))
    ensures TotalWeight(ItemsAfterUpdate(items, index, edit)) == TotalWeight(items) - WeightOf(items[index]) + WeightOf(Edited(items[index], edit))
    ensures edit.ProductName? || edit.Category? || edit.Dimensions? ==>
      TotalValue(ItemsAfterUpdate(items, index, edit)) == TotalValue(items) && TotalWeight(ItemsAfterUpdate(items, index, edit)) == TotalWeight(items)
  {
    ItemLists.SumUpdatedAt(items, index, item => Edited(item, edit), ValueOf);
    ItemLists.SumUpdatedAt(items, index, item => Edited(item, edit), WeightOf);
    var edited := Edited(items[index], edit);
    assert edit.ProductName? || edit.Category? || edit.Dimensions? ==>
      ValueOf(edited) == ValueOf(items[index]) && WeightOf(edited) == WeightOf(items[index]);
  }

  /** The component's two state cells, `parcelData` and `isSubmitting`. */
  class ParcelForm {
    var parcelData: ParcelData
    var isSubmitting: bool

    constructor ()
      ensures parcelData == InitialData && !isSubmitting
    {
      parcelData := InitialData;
      isSubmitting := false;
    }

    method AddItem()
      modifies this
      ensures parcelData == old(parcelData).(items := ItemsAfterAdd(old(parcelData.items)))
      ensures isSubmitting == old(isSubmitting)
    {
      parcelData := parcelData.(items := ItemsAfterAdd(parcelData.items));
    }

    method RemoveItem(index: nat)
      modifies this
      ensures parcelData == old(parcelData).(items := ItemsAfterRemove(old(parcelData.items), index))
      ensures isSubmitting == old(isSubmitting)
      ensures old(|parcelData.items|) >= 1 ==> |parcelData.items| >= 1
    {
      parcelData := parcelData.(items := ItemsAfterRemove(parcelData.items, index));
    }

    method UpdateItem(index: nat, edit: ItemEdit)
      modifies this
      ensures parcelData == old(parcelData).(items := ItemsAfterUpdate(old(parcelData.items), index, edit))
      ensures isSubmitting == old(isSubmitting)
    {
      parcelData := parcelData.(items := ItemsAfterUpdate(parcelData.items, index, edit));
    }

    /** The first half of `handleSubmit`: the flag goes up and the payload is built from the current data. */
    method BeginSubmit() returns (payload: ParcelPayload)
      modifies this
      ensures isSubmitting && parcelData == old(parcelData)
      ensures payload == Payload(parcelData)
    {
      isSubmitting := true;
      payload := Payload(parcelData);
    }

    /**
     * The second half, when `Parcel.create` settles: a successful create
     * resets the whole form, a failed one leaves the data for another try.
     */
    method CompleteSubmit(created: bool)
      modifies this
      ensures !isSubmitting
      ensures parcelData == if created then InitialData else old(parcelData)
    {
      if created {
        parcelData := InitialData;
      }
      isSubmitting := false;
    }
  }
}
