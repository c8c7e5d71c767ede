/**
 * The react2 store's product page modal: one product, a quantity that never
 * drops below 1, a size, a colour and a shipping address, turned into a
 * one-item confirmed order with a 10% service fee.
 */
module ProductModal {
  import opened Wrappers
  import Text
  import FormInputs
  import ShippingAddresses

  /** The fields of the displayed product the order uses; the two links may be missing. */
  datatype Product = Product(name: string, price: real, storeUrl: Option<string>, productUrl: Option<string>)

  /** `Math.max(1, quantity - 1)`: the minus button. */
  function Decremented(quantity: int): (r: int)
    ensures r >= 1
    ensures quantity >= 2 ==> r == quantity - 1
    ensures quantity <= 2 ==> r == 1
  {
    if quantity - 1 > 1 then quantity - 1 else 1
  }

  /** `Math.max(1, parseInt(value) || 1)`: the typed quantity. */
  function TypedQuantity(parsed: Option<int>): (r: int)
    ensures r >= 1
    ensures parsed.Some? && parsed.value >= 1 ==> r == parsed.value
    ensures parsed.None? || parsed.value < 1 ==> r == 1
  {
    var n := FormInputs.IntOr(parsed, 1);
    if n > 1 then n else 1
  }

  /** The plus button: `quantity + 1`. */
  function Incremented(quantity: int): (r: int)
    ensures r == quantity + 1
  {
    quantity + 1
  }

  /** Minus undoes plus on every valid quantity. */
  lemma DecrementUndoesIncrement(quantity: int)
    requires quantity >= 1
    ensures Decremented(Incremented(quantity)) == quantity
  {
  }

  /** The summary's three lines. */
  function Subtotal(product: Product, quantity: int): real
  {
    product.price * quantity as real
  }

  function SummaryFee(product: Product, quantity: int): real
  {
    product.price * quantity as real * 0.1
  }

  function SummaryTotal(product: Product, quantity: int): real
  {
    product.price * quantity as real * 1.1
  }

  datatype OrderedItem = OrderedItem(productName: string, productLink: string, price: real, quantity: int, color: string, size: string)

  /** What `Order.create` receives. */
  datatype ProductOrder = ProductOrder(
    orderNumber: string,
    storeUrl: string,
    totalAmount: real,
    serviceFee: real,
    shippingAddress: string,
    status: string,
    paymentStatus: string,
    items: seq<OrderedItem>,
    specialInstructions: string)

  /**
   * `handleOrder` before the remote call: no order without a product or
   * without a selected address; otherwise a confirmed order with exactly
   * one item, at clock reading `now`.
   */
  function OrderFor(product: Option<Product>, selectedAddress: string, quantity: int, color: string, size: string, now: nat): (r: Option<ProductOrder>)
    ensures r.None? <==> product.None? || selectedAddress == ""
    ensures r.Some? ==> r.value.orderNumber == "ORD-AC-" + Text.Decimal(now)
    ensures r.Some? ==> r.value.totalAmount == Subtotal(product.value, quantity)
    ensures r.Some? ==> r.value.serviceFee == r.value.totalAmount * 0.1
    ensures r.Some? ==> r.value.status == "confirmed" && r.value.paymentStatus == "pending"
    ensures r.Some? ==> r.value.shippingAddress == selectedAddress
    ensures r.Some? ==> r.value.storeUrl == FormInputs.TextOr(product.value.storeUrl, "Active Cargo Store")
    ensures r.Some? ==> r.value.specialInstructions == "Active Cargo Store product - " + product.value.name
    ensures r.Some? ==> (|r.value.items| == 1 && r.value.items[0] ==
      OrderedItem(product.value.name, FormInputs.TextOr(product.value.productUrl, ""), product.value.price, quantity, color, size))
  {
    if product.None? || selectedAddress == "" then None
    else
      var p := product.value;
      var total := p.price * quantity as real;
      Some(ProductOrder(
        "ORD-AC-" + Text.Decimal(now),
        FormInputs.TextOr(p.storeUrl, "Active Cargo Store"),
        total,
        total * 0.1,
        selectedAddress,
        "confirmed",
        "pending",
        [OrderedItem(p.name, FormInputs.TextOr(p.productUrl, ""), p.price, quantity, color, size)],
        "Active Cargo Store product - " + p.name))
  }

  /** The summary's total is subtotal plus fee, and the same amount the created order carries. */
  lemma SummaryMatchesOrder(product: Product, selectedAddress: string, quantity: int, color: string, size: string, now: nat)
    requires selectedAddress != ""
    ensures SummaryTotal(product, quantity) == Subtotal(product, quantity) + SummaryFee(product, quantity)
    ensures OrderFor(Some(product), selectedAddress, quantity, color, size, now).value.totalAmount == Subtotal(product, quantity)
    ensures OrderFor(Some(product), selectedAddress, quantity, color, size, now).value.serviceFee == SummaryFee(product, quantity)
  {
  }

  /** The component's state cells. */
  class ProductForm {
    var quantity: int
    var selectedSize: string
    var selectedColor: string
    var addresses: ShippingAddresses.AddressState
    var isOrdering: bool

    /** The quantity is always at least 1. */
    predicate Valid()
      reads this
    {
      quantity >= 1
    }

    constructor ()
      ensures Valid()
      ensures quantity == 1 && selectedSize == "" && selectedColor == ""
      ensures addresses == ShippingAddresses.AddressState([], "") && !isOrdering
    {
      quantity := 1;
      selectedSize := "";
      selectedColor := "";
      addresses := ShippingAddresses.AddressState([], "");
      isOrdering := false;
    }

    /** The order button is enabled only while no order is in flight and an address is selected. */
    predicate OrderButtonEnabled()
      reads this
    {
      !isOrdering && addresses.selected != ""
    }

    method Decrement()
      requires Valid()
      modifies this
      ensures Valid() && quantity == Decremented(old(quantity))
      ensures selectedSize == old(selectedSize) && selectedColor == old(selectedColor)
      ensures addresses == old(addresses) && isOrdering == old(isOrdering)
    {
      quantity := Decremented(quantity);
    }

    method Increment()
      requires Valid()
      modifies this
      ensures Valid() && quantity == old(quantity) + 1
      ensures selectedSize == old(selectedSize) && selectedColor == old(selectedColor)
      ensures addresses == old(addresses) && isOrdering == old(isOrdering)
    {
      quantity := Incremented(quantity);
    }

    method TypeQuantity(parsed: Option<int>)
      requires Valid()
      modifies this
      ensures Valid() && quantity == TypedQuantity(parsed)
      ensures selectedSize == old(selectedSize) && selectedColor == old(selectedColor)
      ensures addresses == old(addresses) && isOrdering == old(isOrdering)
    {
      quantity := TypedQuantity(parsed);
    }

    method SelectSize(size: string)
      requires Valid()
      modifies this
      ensures Valid() && selectedSize == size
      ensures quantity == old(quantity) && selectedColor == old(selectedColor)
      ensures addresses == old(addresses) && isOrdering == old(isOrdering)
    {
      selectedSize := size;
    }

    method SelectColor(color: string)
      requires Valid()
      modifies this
      ensures Valid() && selectedColor == color
      ensures quantity == old(quantity) && selectedSize == old(selectedSize)
      ensures addresses == old(addresses) && isOrdering == old(isOrdering)
    {
      selectedColor := color;
    }

    method SelectAddress(id: string)
      requires Valid()
      modifies this
      ensures Valid() && addresses == old(addresses).(selected := id)
      ensures quantity == old(quantity) && selectedSize == old(selectedSize) && selectedColor == old(selectedColor)
      ensures isOrdering == old(isOrdering)
    {
      addresses := addresses.(selected := id);
    }

    /** `loadAddresses` settling with the list, or with `None` when `Address.list()` failed. */
    method AddressesLoaded(loaded: Option<seq<ShippingAddresses.Address>>)
      requires Valid()
      modifies this
      ensures Valid() && addresses == ShippingAddresses.AfterLoad(old(addresses), loaded)
      ensures quantity == old(quantity) && selectedSize == old(selectedSize) && selectedColor == old(selectedColor)
      ensures isOrdering == old(isOrdering)
    {
      addresses := ShippingAddresses.AfterLoad(addresses, loaded);
    }

    /**
     * The first half of `handleOrder`: without a product or an address
     * nothing happens; otherwise the flag goes up and the order is built.
     */
    method BeginOrder(product: Option<Product>, now: nat) returns (order: Option<ProductOrder>)
      requires Valid()
      modifies this
      ensures Valid()
      ensures order == OrderFor(product, addresses.selected, quantity, selectedColor, selectedSize, now)
      ensures isOrdering == (old(isOrdering) || order.Some?)
      ensures quantity == old(quantity) && selectedSize == old(selectedSize) && selectedColor == old(selectedColor)
      ensures addresses == old(addresses)
      ensures old(OrderButtonEnabled()) && product.Some? ==> order.Some?
      ensures order.Some? ==> !OrderButtonEnabled()
    {
      order := OrderFor(product, addresses.selected, quantity, selectedColor, selectedSize, now);
      if order.Some? {
        isOrdering := true;
      }
    }

    /** The second half, when `Order.create` settles: a created order resets quantity, size and colour. */
    method CompleteOrder(created: bool)
      requires Valid()
      modifies this
      ensures Valid() && !isOrdering
      ensures created ==> quantity == 1 && selectedSize == "" && selectedColor == ""
      ensures !created ==> quantity == old(quantity) && selectedSize == old(selectedSize) && selectedColor == old(selectedColor)
      ensures addresses == old(addresses)
    {
      if created {
        quantity := 1;
        selectedSize := "";
        selectedColor := "";
      }
      isOrdering := false;
    }
  }
}
