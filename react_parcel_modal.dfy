/**
 * The parcel modal of the first React app: a single `items` cell, each
 * handler returning a new list. Items are keyed by `id`; quantity and
 * price hold what their inputs produced.
 */
module ReactParcelModal {
  import Seqs
  import Text
  import ItemLists
  import FormInputs

  type Raw = FormInputs.Raw

  datatype ParcelItem = ParcelItem(id: int, name: string, category: string, quantity: Raw, price: Raw)

  /** A new item: no name, the first category, quantity 1, price `''`. */
  function BlankItem(id: int): ParcelItem
  {
    ParcelItem(id, "", "Electronics", FormInputs.Number(1.0), FormInputs.Text(""))
  }

  const InitialItems := [BlankItem(1)]

  /** `handleItemChange(id, field, value)`: every input hands over its text. */
  datatype ItemEdit =
    | Name(name: string)
    | Category(category: string)
    | Quantity(quantity: string)
    | Price(price: string)

  function Edited(item: ParcelItem, edit: ItemEdit): (r: ParcelItem)
    ensures r.id == item.id
    ensures r.name == (if edit.Name? then edit.name else item.name)
    ensures r.category == (if edit.Category? then edit.category else item.category)
    ensures r.quantity == (if edit.Quantity? then FormInputs.Text(edit.quantity) else item.quantity)
    ensures r.price == (if edit.Price? then FormInputs.Text(edit.price) else item.price)
  {
    match edit
    case Name(s) => item.(name := s)
    case Category(s) => item.(category := s)
    case Quantity(s) => item.(quantity := FormInputs.Text(s))
    case Price(s) => item.(price := FormInputs.Text(s))
  }

  function HasId(id: int): ParcelItem -> bool
  {
    (item: ParcelItem) => item.id == id
  }

  /** `handleItemChange`: the edit applies to every item with that id and to no other. */
  function ItemsAfterChange(items: seq<ParcelItem>, id: int, edit: ItemEdit): (r: seq<ParcelItem>)
    ensures |r| == |items|
    ensures forall j :: 0 <= j < |items| ==> r[j] == if items[j].id == id then Edited(items[j], edit) else items[j]
  {
    ItemLists.UpdatedWhere(items, HasId(id), (item: ParcelItem) => Edited(item, edit))
  }

  /** `addItem`, with `now` the `Date.now()` reading used as the new id. */
  function ItemsAfterAdd(items: seq<ParcelItem>, now: int): (r: seq<ParcelItem>)
    ensures |r| == |items| + 1 && r[..|items|] == items && r[|items|] == BlankItem(now)
  {
    ItemLists.Appended(items, BlankItem(now))
  }

  function ItemsAfterRemove(items: seq<ParcelItem>, id: int): seq<ParcelItem>
  {
    ItemLists.RemovedWhere(items, HasId(id))
  }

  /** Removal by id keeps exactly the items with other ids, in their order. */
  lemma RemoveItemKeepsOthers(items: seq<ParcelItem>, id: int)
    ensures forall x :: x in ItemsAfterRemove(items, id) <==> x in items && x.id != id
    ensures Seqs.IsSubsequence(ItemsAfterRemove(items, id), items)
  {
    ItemLists.RemovedWhereSpec(items, HasId(id));
  }

  /** With distinct ids, removing an existing item shortens the list by exactly one. */
  lemma RemoveUniqueItem(items: seq<ParcelItem>, k: nat)
    requires k < |items|
    requires forall i, j :: 0 <= i < j < |items| ==> items[i].id != items[j].id
    ensures |ItemsAfterRemove(items, items[k].id)| == |items| - 1
  {
    ItemLists.RemovedWhereUnique(items, HasId(items[k].id), k);
  }

  /** The remove control is rendered on every item while more than one exists, on none otherwise. */
  predicate ShowsRemoveControls(items: seq<ParcelItem>)
  {
    |items| > 1
  }

  /** With distinct ids, a click on a rendered remove control never empties the list. */
  lemma RemoveControlKeepsOneItem(items: seq<ParcelItem>, k: nat)
    requires k < |items| && ShowsRemoveControls(items)
    requires forall i, j :: 0 <= i < j < |items| ==> items[i].id != items[j].id
    ensures |ItemsAfterRemove(items, items[k].id)| >= 1
  {
    RemoveUniqueItem(items, k);
  }

  /** The heading of each item: `Item {index + 1}`. */
  function ItemLabels(items: seq<ParcelItem>): (r: seq<string>)
    ensures |r| == |items|
    ensures forall i :: 0 <= i < |r| ==> r[i] == "Item " + Text.Decimal(i + 1)
  {
    seq(|items|, i requires 0 <= i < |items| => "Item " + Text.Decimal(i + 1))
  }

  /** Labels are numbered by position, so no two items share a label. */
  lemma ItemLabelsDistinct(items: seq<ParcelItem>, i: nat, j: nat)
    requires i < j < |items|
    ensures ItemLabels(items)[i] != ItemLabels(items)[j]
  {
    var a, b := ItemLabels(items)[i], ItemLabels(items)[j];
    Text.DecimalValue(i + 1);
    Text.DecimalValue(j + 1);
    assert a[5..] == Text.Decimal(i + 1);
    assert b[5..] == Text.Decimal(j + 1);
  }
}
