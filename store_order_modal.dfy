/**
 * The react2 store's order form: a list of products to buy, edited by
 * position, whose price total and 10% service fee go into the created
 * order. Opening the modal resets the form and loads the shipping
 * addresses; submitting ends in a success or an error status.
 */
module StoreOrderModal {
  import opened Wrappers
  import Seqs
  import Text
  import ItemLists
  import FormInputs
  import ShippingAddresses

  datatype OrderItem = OrderItem(productLink: string, productName: string, price: real, quantity: int)

  /** The item the form starts with, is reset to, and `addItem` appends. */
  const BlankItem := OrderItem("", "", 0.0, 1)

  datatype OrderData = OrderData(storeUrl: string, items: seq<OrderItem>, specialInstructions: string)

  /** The form data after every opening. */
  const InitialData := OrderData("", [BlankItem], "")

  /** `submissionStatus`: `null`, `'success'` or `'error'`. */
  datatype SubmissionStatus = NoStatus | Success | Error

  /** `updateItem(index, field, value)`: one field name with the value its input produced. */
  datatype ItemEdit =
    | ProductLink(link: string)
    | ProductName(name: string)
    | Price(price: real)
    | Quantity(quantity: int)

  /** `{ ...item, [field]: value }`: the named field takes the value, the others stay. */
  function Edited(item: OrderItem, edit: ItemEdit): (r: OrderItem)
    ensures r.productLink == (if edit.ProductLink? then edit.link else item.productLink)
    ensures r.productName == (if edit.ProductName? then edit.name else item.productName)
    ensures r.price == (if edit.Price? then edit.price else item.price)
    ensures r.quantity == (if edit.Quantity? then edit.quantity else item.quantity)
  {
    match edit
    case ProductLink(s) => item.(productLink := s)
    case ProductName(s) => item.(productName := s)
    case Price(p) => item.(price := p)
    case Quantity(q) => item.(quantity := q)
  }

  /** The price input: `parseFloat(value) || 0`. */
  function PriceInput(parsed: Option<real>): (e: ItemEdit)
    ensures e.Price? && e.price == (if parsed.Some? then parsed.value else 0.0)
  {
    Price(FormInputs.RealOr(parsed, 0.0))
  }

  /** The quantity input: `parseInt(value) || 1`. */
  function QuantityInput(parsed: Option<int>): (e: ItemEdit)
    ensures e.Quantity? && e.quantity != 0
    ensures parsed.None? || parsed.value == 0 ==> e.quantity == 1
    ensures parsed.Some? && parsed.value != 0 ==> e.quantity == parsed.value
  {
    Quantity(FormInputs.IntOr(parsed, 1))
  }

  function ItemsAfterAdd(items: seq<OrderItem>): seq<OrderItem>
  {
    ItemLists.Appended(items, BlankItem)
  }

  function ItemsAfterRemove(items: seq<OrderItem>, index: nat): seq<OrderItem>
  {
    ItemLists.RemovedKeepingOne(items, index)
  }

  function ItemsAfterUpdate(items: seq<OrderItem>, index: nat, edit: ItemEdit): seq<OrderItem>
  {
    ItemLists.UpdatedAt(items, index, item => Edited(item, edit))
  }

  function AmountOf(item: OrderItem): real
  {
    item.price * item.quantity as real
  }

  /** `totalAmount`: Σ price × quantity. */
  function TotalAmount(items: seq<OrderItem>): real
  {
    Seqs.Sum(items, AmountOf)
  }

  /** `serviceFee`: 10% of the total. */
  function ServiceFee(items: seq<OrderItem>): real
  {
    TotalAmount(items) * 0.1
  }

  /** The grand total in the order summary: total plus fee. */
  function GrandTotal(items: seq<OrderItem>): real
  {
    TotalAmount(items) + ServiceFee(items)
  }

  /** Whether the item at `index` shows a remove button: only while more than one item exists. */
  predicate ShowsRemoveButton(items: seq<OrderItem>, index: nat)
  {
    index < |items| && |items| > 1
  }

  /** What `Order.create` receives. */
  datatype OrderPayload = OrderPayload(
    orderNumber: string,
    storeUrl: string,
    totalAmount: real,
    serviceFee: real,
    shippingAddress: string,
    status: string,
    items: seq<OrderItem>,
    specialInstructions: string)

  /** The payload built from the form, the selected address and the clock reading `now`. */
  function Payload(data: OrderData, selectedAddress: string, now: nat): (p: OrderPayload)
    ensures p.orderNumber == "ORD-" + Text.Decimal(now)
    ensures p.storeUrl == data.storeUrl && p.items == data.items && p.specialInstructions == data.specialInstructions
    ensures p.shippingAddress == selectedAddress && p.status == "pending"
    ensures p.totalAmount == TotalAmount(data.items) && p.serviceFee == ServiceFee(data.items)
    ensures p.totalAmount + p.serviceFee == GrandTotal(data.items)
  {
    OrderPayload("ORD-" + Text.Decimal(now), data.storeUrl, TotalAmount(data.items), ServiceFee(data.items),
      selectedAddress, "pending", data.items, data.specialInstructions)
  }

  /** The grand total is 110% of the products total; with non-negative prices and quantities, so is everything else. */
  lemma GrandTotalIsElevenTenths(items: seq<OrderItem>)
    ensures GrandTotal(items) == TotalAmount(items) * 1.1
    ensures (forall i :: 0 <= i < |items| ==> items[i].price >= 0.0 && items[i].quantity >= 0) ==>
      0.0 <= ServiceFee(items) <= GrandTotal(items)
  {
    if forall i :: 0 <= i < |items| ==> items[i].price >= 0.0 && items[i].quantity >= 0 {
      Seqs.SumNonNegative(items, AmountOf);
    }
  }

  /** Order numbers taken at different clock readings differ. */
  lemma OrderNumbersFollowClock(now1: nat, now2: nat)
    requires now1 != now2
    ensures "ORD-" + Text.Decimal(now1) != "ORD-" + Text.Decimal(now2)
  {
    Text.DecimalValue(now1);
    Text.DecimalValue(now2);
    var a, b := Text.Decimal(now1), Text.Decimal(now2);
    assert ("ORD-" + a)[4..] == a;
    assert ("ORD-" + b)[4..] == b;
  }

  /** The remove button is shown for exactly the items a click would remove. */
  lemma RemoveButtonMeansRemovable(items: seq<OrderItem>, index: nat)
    requires index < |items|
    ensures ShowsRemoveButton(items, index) <==> |ItemsAfterRemove(items, index)| == |items| - 1
  {
  }

  /** A freshly opened form has one blank item and nothing to pay. */
  lemma InitialForm()
    ensures |InitialData.items| == 1 && InitialData.items[0] == OrderItem("", "", 0.0, 1)
    ensures TotalAmount(InitialData.items) == 0.0 && ServiceFee(InitialData.items) == 0.0
  {
    Seqs.SumSingleton(BlankItem, AmountOf);
  }

  /** Adding a blank item leaves the amounts unchanged. */
  lemma AddItemKeepsTotal(items: seq<OrderItem>)
    ensures TotalAmount(ItemsAfterAdd(items)) == TotalAmount(items)
    ensures ServiceFee(ItemsAfterAdd(items)) == ServiceFee(items)
  {
    ItemLists.SumAppended(items, BlankItem, AmountOf);
  }

  /** A removal that happens takes exactly the removed item's amount out; a refused one changes nothing. */
  lemma RemoveItemTotal(items: seq<OrderItem>, index: nat)
    requires index < |items|
    ensures |items| > 1 ==> TotalAmount(ItemsAfterRemove(items, index)) == TotalAmount(items) - AmountOf(items[index])
    ensures |items| == 1 ==> ItemsAfterRemove(items, index) == items
  {
    if |items| > 1 {
      ItemLists.SumRemovedKeepingOne(items, index, AmountOf);
    }
  }

  /** Editing one item changes the total by that item's change only; link and name edits leave it as it was. */
  lemma UpdateItemTotal(items: seq<OrderItem>, index: nat, edit: ItemEdit)
    requires index < |items|
    ensures TotalAmount(ItemsAfterUpdate(items, index, edit)) == TotalAmount(items) - AmountOf(items[index]) + AmountOf(Edited(items[index], edit))
    ensures edit.ProductLink? || edit.ProductName? ==> TotalAmount(ItemsAfterUpdate(items, index, edit)) == TotalAmount(items)
  {
    ItemLists.SumUpdatedAt(items, index, item => Edited(item, edit), AmountOf);
    var edited := Edited(items[index], edit);
    assert edit.ProductLink? || edit.ProductName? ==> AmountOf(edited) == AmountOf(items[index]);
  }

  /** The component's state cells. */
  class OrderForm {
    var orderData: OrderData
    var addresses: ShippingAddresses.AddressState
    var isSubmitting: bool
    var submissionStatus: SubmissionStatus

    constructor ()
      ensures orderData == InitialData && addresses == ShippingAddresses.AddressState([], "")
      ensures !isSubmitting && submissionStatus == NoStatus
    {
      orderData := InitialData;
      addresses := ShippingAddresses.AddressState([], "");
      isSubmitting := false;
      submissionStatus := NoStatus;
    }

    /** The effect run when `isOpen` becomes true: the status is cleared and the form reset; the address request goes out. */
    method Open()
      modifies this
      ensures submissionStatus == NoStatus && orderData == InitialData
      ensures addresses == old(addresses) && isSubmitting == old(isSubmitting)
    {
      submissionStatus := NoStatus;
      orderData := InitialData;
    }

    /** `loadAddresses` settling with the list, or with `None` when `Address.list()` failed. */
    method AddressesLoaded(loaded: Option<seq<ShippingAddresses.Address>>)
      modifies this
      ensures addresses == ShippingAddresses.AfterLoad(old(addresses), loaded)
      ensures orderData == old(orderData) && isSubmitting == old(isSubmitting) && submissionStatus == old(submissionStatus)
    {
      addresses := ShippingAddresses.AfterLoad(addresses, loaded);
    }

    method SetStoreUrl(url: string)
      modifies this
      ensures orderData == old(orderData).(storeUrl := url)
      ensures addresses == old(addresses) && isSubmitting == old(isSubmitting) && submissionStatus == old(submissionStatus)
    {
      orderData := orderData.(storeUrl := url);
    }

    method SetSpecialInstructions(text: string)
      modifies this
      ensures orderData == old(orderData).(specialInstructions := text)
      ensures addresses == old(addresses) && isSubmitting == old(isSubmitting) && submissionStatus == old(submissionStatus)
    {
      orderData := orderData.(specialInstructions := text);
    }

    method AddItem()
      modifies this
      ensures orderData == old(orderData).(items := ItemsAfterAdd(old(orderData.items)))
      ensures addresses == old(addresses) && isSubmitting == old(isSubmitting) && submissionStatus == old(submissionStatus)
    {
      orderData := orderData.(items := ItemsAfterAdd(orderData.items));
    }

    method RemoveItem(index: nat)
      modifies this
      ensures orderData == old(orderData).(items := ItemsAfterRemove(old(orderData.items), index))
      ensures old(|orderData.items|) >= 1 ==> |orderData.items| >= 1
      ensures addresses == old(addresses) && isSubmitting == old(isSubmitting) && submissionStatus == old(submissionStatus)
    {
      orderData := orderData.(items := ItemsAfterRemove(orderData.items, index));
    }

    method UpdateItem(index: nat, edit: ItemEdit)
      modifies this
      ensures orderData == old(orderData).(items := ItemsAfterUpdate(old(orderData.items), index, edit))
      ensures addresses == old(addresses) && isSubmitting == old(isSubmitting) && submissionStatus == old(submissionStatus)
    {
      orderData := orderData.(items := ItemsAfterUpdate(orderData.items, index, edit));
    }

    /** `handleClose`: the status is cleared; the form data stays until the next opening. */
    method Close()
      modifies this
      ensures submissionStatus == NoStatus
      ensures orderData == old(orderData) && addresses == old(addresses) && isSubmitting == old(isSubmitting)
    {
      submissionStatus := NoStatus;
    }

    /** The first half of `handleSubmit`: the flag goes up and the payload is built at clock reading `now`. */
    method BeginSubmit(now: nat) returns (payload: OrderPayload)
      modifies this
      ensures isSubmitting
      ensures payload == Payload(orderData, addresses.selected, now)
      ensures orderData == old(orderData) && addresses == old(addresses) && submissionStatus == old(submissionStatus)
    {
      isSubmitting := true;
      payload := Payload(orderData, addresses.selected, now);
    }

    /** The second half, when `Order.create` settles: the status records the outcome; the form is not reset. */
    method CompleteSubmit(created: bool)
      modifies this
      ensures !isSubmitting
      ensures submissionStatus == if created then Success else Error
      ensures orderData == old(orderData) && addresses == old(addresses)
    {
      submissionStatus := if created then Success else Error;
      isSubmitting := false;
    }
  }
}
