/**
 * The order modal of the first React app: items keyed by `id` whose price
 * and quantity are kept as the raw text of their inputs, a `total` cell
 * that an effect recomputes after every change, and a "fetch details"
 * action that fills one item from a generated product description.
 *
 * The fetch is two events: the request (which only raises the item's
 * loading flag) and the delivery of its outcome, applied to whatever list
 * exists when it arrives. Nothing orders or discards late responses: the
 * last one delivered wins.
 */
module FetchOrderModal {
  import opened Wrappers
  import Seqs
  import ItemLists
  import FormInputs

  type Raw = FormInputs.Raw

  datatype OrderItem = OrderItem(
    id: int,
    link: string,
    name: string,
    price: Raw,
    quantity: Raw,
    color: string,
    size: string,
    category: string)

  /** A new item: empty texts, price `''`, quantity 1, the first category. */
  function BlankItem(id: int): OrderItem
  {
    OrderItem(id, "", "", FormInputs.Text(""), FormInputs.Number(1.0), "", "", "Category 1*")
  }

  /** The list the modal starts with. */
  const InitialItems := [BlankItem(1)]

  /** `handleItemChange(id, field, value)`: every input hands over its text. */
  datatype ItemEdit =
    | Link(link: string)
    | Name(name: string)
    | Price(price: string)
    | Quantity(quantity: string)
    | Color(color: string)
    | Size(size: string)
    | Category(category: string)

  function Edited(item: OrderItem, edit: ItemEdit): (r: OrderItem)
    ensures r.id == item.id
    ensures r.link == (if edit.Link? then edit.link else item.link)
    ensures r.name == (if edit.Name? then edit.name else item.name)
    ensures r.price == (if edit.Price? then FormInputs.Text(edit.price) else item.price)
    ensures r.quantity == (if edit.Quantity? then FormInputs.Text(edit.quantity) else item.quantity)
    ensures r.color == (if edit.Color? then edit.color else item.color)
    ensures r.size == (if edit.Size? then edit.size else item.size)
    ensures r.category == (if edit.Category? then edit.category else item.category)
  {
    match edit
    case Link(s) => item.(link := s)
    case Name(s) => item.(name := s)
    case Price(s) => item.(price := FormInputs.Text(s))
    case Quantity(s) => item.(quantity := FormInputs.Text(s))
    case Color(s) => item.(color := s)
    case Size(s) => item.(size := s)
    case Category(s) => item.(category := s)
  }

  function HasId(id: int): OrderItem -> bool
  {
    (item: OrderItem) => item.id == id
  }

  function ItemsAfterChange(items: seq<OrderItem>, id: int, edit: ItemEdit): seq<OrderItem>
  {
    ItemLists.UpdatedWhere(items, HasId(id), (item: OrderItem) => Edited(item, edit))
  }

  /** `addItem`, with `now` the `Date.now()` reading used as the new id. */
  function ItemsAfterAdd(items: seq<OrderItem>, now: int): seq<OrderItem>
  {
    ItemLists.Appended(items, BlankItem(now))
  }

  function ItemsAfterRemove(items: seq<OrderItem>, id: int): seq<OrderItem>
  {
    ItemLists.RemovedWhere(items, HasId(id))
  }

  /** One item's share of `total`: `(parseFloat(price) || 0) * (parseInt(quantity, 10) || 0)`. */
  function Amount(p: FormInputs.Parsers, item: OrderItem): real
  {
    FormInputs.RealOr(FormInputs.FloatOf(p, item.price), 0.0) * FormInputs.IntOr(FormInputs.IntegerOf(p, item.quantity), 0) as real
  }

  function AmountWith(p: FormInputs.Parsers): OrderItem -> real
  {
    (item: OrderItem) => Amount(p, item)
  }

  /** The value the effect writes into `total`. */
  function Total(p: FormInputs.Parsers, items: seq<OrderItem>): real
  {
    Seqs.Sum(items, AmountWith(p))
  }

  /**
   * The fields of the parsed response the handler reads. Each may be
   * missing; `productName`, `color` and `size` are modelled only as
   * strings, and `price` only as a string or a number. Other JSON values
   * (booleans, arrays, objects, `null`) in these fields are not modelled.
   */
  datatype ProductData = ProductData(productName: Option<string>, price: Option<Raw>, color: Option<string>, size: Option<string>)

  /** `productData.price || ''`: a missing, empty or zero price becomes the empty text. */
  function RawOr(v: Option<Raw>): (r: Raw)
    ensures v.None? || v.value == FormInputs.Text("") || v.value == FormInputs.Number(0.0) ==> r == FormInputs.Text("")
    ensures v.Some? && v.value != FormInputs.Text("") && v.value != FormInputs.Number(0.0) ==> r == v.value
  {
    if v.None? then FormInputs.Text("")
    else if v.value.Text? && v.value.text == "" then FormInputs.Text("")
    else if v.value.Number? && v.value.number == 0.0 then FormInputs.Text("")
    else v.value
  }

  /** The successful fetch's merge: name, price, colour and size are overwritten; the rest stays. */
  function Filled(item: OrderItem, d: ProductData): (r: OrderItem)
    ensures r.id == item.id && r.link == item.link && r.quantity == item.quantity && r.category == item.category
    ensures r.name == FormInputs.TextOr(d.productName, "") && r.price == RawOr(d.price)
    ensures r.color == FormInputs.TextOr(d.color, "") && r.size == FormInputs.TextOr(d.size, "")
  {
    item.(name := FormInputs.TextOr(d.productName, ""), price := RawOr(d.price),
          color := FormInputs.TextOr(d.color, ""), size := FormInputs.TextOr(d.size, ""))
  }

  /** The delivery of a fetch for `id`: `None` is a failed call or an unparsable response. */
  function ItemsAfterResponse(items: seq<OrderItem>, id: int, response: Option<ProductData>): (r: seq<OrderItem>)
    ensures response.None? ==> r == items
  {
    match response
    case None => items
    case Some(d) => ItemLists.UpdatedWhere(items, HasId(id), (item: OrderItem) => Filled(item, d))
  }

  /** The list starts with one blank item with id 1; with `''` unparsable its total is 0. */
  lemma InitialState(p: FormInputs.Parsers)
    requires FormInputs.EmptyIsNaN(p)
    ensures |InitialItems| == 1 && InitialItems[0].id == 1 && InitialItems[0].quantity == FormInputs.Number(1.0)
    ensures InitialItems[0].category == "Category 1*" && InitialItems[0].price == FormInputs.Text("")
    ensures Total(p, InitialItems) == 0.0
  {
    Seqs.SumSingleton(BlankItem(1), AmountWith(p));
  }

  /** A blank item contributes nothing to the total, so adding one leaves it as it was. */
  lemma AddItemKeepsTotal(p: FormInputs.Parsers, items: seq<OrderItem>, now: int)
    requires FormInputs.EmptyIsNaN(p)
    ensures Total(p, ItemsAfterAdd(items, now)) == Total(p, items)
  {
    ItemLists.SumAppended(items, BlankItem(now), AmountWith(p));
  }

  /** Removing by id drops the removed items' amounts and keeps everyone else's. */
  lemma RemoveItemTotal(p: FormInputs.Parsers, items: seq<OrderItem>, id: int)
    ensures Total(p, ItemsAfterRemove(items, id)) == Seqs.Sum(items, ItemLists.Masked(HasId(id), AmountWith(p)))
  {
    ItemLists.SumRemovedWhere(items, HasId(id), AmountWith(p));
  }

  /** Editing a field that is neither price nor quantity leaves the total as it was. */
  lemma TextEditKeepsTotal(p: FormInputs.Parsers, items: seq<OrderItem>, id: int, edit: ItemEdit)
    requires !edit.Price? && !edit.Quantity?
    ensures Total(p, ItemsAfterChange(items, id, edit)) == Total(p, items)
  {
    ItemLists.SumUpdatedWhere(items, HasId(id), (item: OrderItem) => Edited(item, edit), AmountWith(p));
  }

  /** With distinct ids, removing an existing item shortens the list by exactly one. */
  lemma RemoveUniqueItem(items: seq<OrderItem>, k: nat)
    requires k < |items|
    requires forall i, j :: 0 <= i < j < |items| ==> items[i].id != items[j].id
    ensures |ItemsAfterRemove(items, items[k].id)| == |items| - 1
  {
    ItemLists.RemovedWhereUnique(items, HasId(items[k].id), k);
  }

  /** Removal by id keeps exactly the items with other ids, in order. */
  lemma RemoveItemKeepsOthers(items: seq<OrderItem>, id: int)
    ensures forall x :: x in ItemsAfterRemove(items, id) <==> x in items && x.id != id
    ensures Seqs.IsSubsequence(ItemsAfterRemove(items, id), items)
  {
    ItemLists.RemovedWhereSpec(items, HasId(id));
  }

  /** A response for an id that is no longer in the list changes nothing. */
  lemma ResponseForRemovedItem(items: seq<OrderItem>, id: int, response: Option<ProductData>)
    requires forall j :: 0 <= j < |items| ==> items[j].id != id
    ensures ItemsAfterResponse(items, id, response) == items
  {
    if response.Some? {
      ItemLists.UpdatedWhereNoMatch(items, HasId(id), (item: OrderItem) => Filled(item, response.value));
    }
  }

  /** Of two successful responses for the same id, the one delivered last decides the item. */
  lemma LastResponseWins(items: seq<OrderItem>, id: int, first: ProductData, second: ProductData)
    ensures ItemsAfterResponse(ItemsAfterResponse(items, id, Some(first)), id, Some(second))
         == ItemsAfterResponse(items, id, Some(second))
  {
    ItemLists.UpdatedWhereTwice(items, HasId(id), (item: OrderItem) => Filled(item, first), (item: OrderItem) => Filled(item, second));
  }

  /** The component's state cells; the step indicator never leaves step 1 and is not kept. */
  class OrderForm {
    const parsers: FormInputs.Parsers
    var items: seq<OrderItem>
    var total: real
    var loadingStates: map<int, bool>

    /** `total` always holds what the effect computes from `items`. */
    predicate Valid()
      reads this
    {
      total == Total(parsers, items)
    }

    /** The fetch button of item `id` is disabled while its flag is set. */
    predicate IsLoading(id: int)
      reads this
    {
      id in loadingStates && loadingStates[id]
    }

    /** The initial state, after the mount effect has computed the total. */
    constructor (p: FormInputs.Parsers)
      ensures Valid() && parsers == p
      ensures items == InitialItems && loadingStates == map[]
    {
      parsers := p;
      items := InitialItems;
      total := Total(p, InitialItems);
      loadingStates := map[];
    }

    method ChangeItem(id: int, edit: ItemEdit)
      requires Valid()
      modifies this
      ensures Valid() && items == ItemsAfterChange(old(items), id, edit)
      ensures loadingStates == old(loadingStates)
    {
      items := ItemsAfterChange(items, id, edit);
      total := Total(parsers, items);
    }

    method AddItem(now: int)
      requires Valid()
      modifies this
      ensures Valid() && items == ItemsAfterAdd(old(items), now)
      ensures loadingStates == old(loadingStates)
    {
      items := ItemsAfterAdd(items, now);
      total := Total(parsers, items);
    }

    method RemoveItem(id: int)
      requires Valid()
      modifies this
      ensures Valid() && items == ItemsAfterRemove(old(items), id)
      ensures loadingStates == old(loadingStates)
    {
      items := ItemsAfterRemove(items, id);
      total := Total(parsers, items);
    }

    /**
     * The synchronous part of `handleFetchDetails`: with an empty link
     * nothing changes and no request is issued; otherwise the item's flag
     * goes up.
     */
    method RequestDetails(id: int, link: string) returns (issued: bool)
      requires Valid()
      modifies this
      ensures Valid() && issued == (link != "")
      ensures items == old(items) && total == old(total)
      ensures loadingStates == if issued then old(loadingStates)[id := true] else old(loadingStates)
    {
      issued := link != "";
      if issued {
        loadingStates := loadingStates[id := true];
      }
    }

    /** The rest of it, when the response arrives: the merge on success, and the flag down either way. */
    method DeliverDetails(id: int, response: Option<ProductData>)
      requires Valid()
      modifies this
      ensures Valid() && items == ItemsAfterResponse(old(items), id, response)
      ensures loadingStates == old(loadingStates)[id := false] && !IsLoading(id)
    {
      items := ItemsAfterResponse(items, id, response);
      total := Total(parsers, items);
      loadingStates := loadingStates[id := false];
    }
  }

  /** The remove button is rendered on every item while more than one exists, on none otherwise. */
  predicate ShowsRemoveButtons(items: seq<OrderItem>)
  {
    |items| > 1
  }

  /** With distinct ids, a click on a rendered remove button never empties the list. */
  lemma RemoveButtonKeepsOneItem(items: seq<OrderItem>, k: nat)
    requires k < |items| && ShowsRemoveButtons(items)
    requires forall i, j :: 0 <= i < j < |items| ==> items[i].id != items[j].id
    ensures |ItemsAfterRemove(items, items[k].id)| >= 1
  {
    RemoveUniqueItem(items, k);
  }
}
