/**
 * The Angular order modal. Its `FormArray` of item groups is an array
 * changed in place: `push` appends (growing the storage when full),
 * `removeAt` shifts the later groups down, `patchValue` overwrites fields of
 * one group. `total` is written by the form's `valueChanges` subscriber.
 *
 * Two things about the source shape this model:
 * - `initForm` builds a new form every time the modal is shown but never
 *   unsubscribes from the previous form's `valueChanges`, and does not
 *   recompute `total` itself.
 * - `fetchDetails(i)` captures the group object, not its position. The
 *   response is patched into that group wherever it now is, even into a form
 *   that has since been replaced, and the replaced form's still-live
 *   subscriber then writes that form's sum into `total`. The loading flag,
 *   on the other hand, is cleared at the position `i` captured at request
 *   time.
 * Each group carries a `key` standing for its object identity, and each form
 * a number; the forms replaced so far are kept in `retired`.
 */
module CreateOrderModal {
  import opened Wrappers
  import Seqs
  import ItemLists
  import Modals

  /** One item group's value, with `key` its identity. */
  datatype ItemGroup = ItemGroup(key: nat, productLink: string, price: real, quantity: real)

  /** `createItem`: link `''` (required), price 0, quantity 1. */
  function CreateItem(key: nat): ItemGroup
  {
    ItemGroup(key, "", 0.0, 1.0)
  }

  function AmountOf(g: ItemGroup): real
  {
    g.price * g.quantity
  }

  /** What the `valueChanges` subscriber writes into `total` for a form's value. */
  function FormTotal(groups: seq<ItemGroup>): real
  {
    Seqs.Sum(groups, AmountOf)
  }

  /** `orderForm.valid`: the only validator is `required` on every product link. */
  predicate FormValid(groups: seq<ItemGroup>)
  {
    forall j :: 0 <= j < |groups| ==> groups[j].productLink != ""
  }

  /** A change the user makes in one of a group's inputs. */
  datatype FieldEdit = ProductLink(link: string) | Price(price: real) | Quantity(quantity: real)

  function Edited(g: ItemGroup, e: FieldEdit): (r: ItemGroup)
    ensures r.key == g.key
    ensures r.productLink == (if e.ProductLink? then e.link else g.productLink)
    ensures r.price == (if e.Price? then e.price else g.price)
    ensures r.quantity == (if e.Quantity? then e.quantity else g.quantity)
  {
    match e
    case ProductLink(s) => g.(productLink := s)
    case Price(p) => g.(price := p)
    case Quantity(q) => g.(quantity := q)
  }

  /**
   * The object a fetch response delivers, reduced to the control names
   * `patchValue` recognises; a missing name leaves its control alone.
   */
  datatype PatchData = PatchData(productLink: Option<string>, price: Option<real>, quantity: Option<real>)

  /** What the content service hands over when its call fails: an empty object. */
  const FailedCallData := PatchData(None, None, None)

  function Patched(g: ItemGroup, d: PatchData): (r: ItemGroup)
    ensures r.key == g.key
    ensures r.productLink == (if d.productLink.Some? then d.productLink.value else g.productLink)
    ensures r.price == (if d.price.Some? then d.price.value else g.price)
    ensures r.quantity == (if d.quantity.Some? then d.quantity.value else g.quantity)
  {
    ItemGroup(g.key, d.productLink.GetOr(g.productLink), d.price.GetOr(g.price), d.quantity.GetOr(g.quantity))
  }

  function HasKey(key: nat): ItemGroup -> bool
  {
    (g: ItemGroup) => g.key == key
  }

  /** A form's value after the group with identity `key` is patched with `d`. */
  function PatchedForm(groups: seq<ItemGroup>, key: nat, d: PatchData): seq<ItemGroup>
  {
    ItemLists.UpdatedWhere(groups, HasKey(key), (g: ItemGroup) => Patched(g, d))
  }

  predicate KeysDistinct(groups: seq<ItemGroup>)
  {
    forall i, j :: 0 <= i < j < |groups| ==> groups[i].key != groups[j].key
  }

  /** Identities are distinct and all below the next one to be handed out. */
  predicate KeysFresh(groups: seq<ItemGroup>, nextKey: nat)
  {
    KeysDistinct(groups) && forall j :: 0 <= j < |groups| ==> groups[j].key < nextKey
  }

  /** A default group with the next identity keeps the identities distinct and fresh. */
  lemma KeysFreshPush(groups: seq<ItemGroup>, key: nat)
    requires KeysFresh(groups, key)
    ensures KeysFresh(groups + [CreateItem(key)], key + 1)
  {
  }

  /** Removing a group keeps the identities distinct and fresh. */
  lemma KeysFreshRemoveAt(groups: seq<ItemGroup>, i: nat, nextKey: nat)
    requires KeysFresh(groups, nextKey)
    ensures KeysFresh(Seqs.RemoveAt(groups, i), nextKey)
  {
    if i < |groups| {
      Seqs.RemoveAtElements(groups, i);
    }
  }

  /** With distinct identities, the patch lands on the one group with that identity, wherever it now sits. */
  lemma PatchLandsOnOneGroup(groups: seq<ItemGroup>, key: nat, d: PatchData, i: nat)
    requires KeysDistinct(groups) && i < |groups| && groups[i].key == key
    ensures PatchedForm(groups, key, d) == groups[i := Patched(groups[i], d)]
  {
    var r := PatchedForm(groups, key, d);
    forall j | 0 <= j < |groups| ensures r[j] == groups[i := Patched(groups[i], d)][j] {
      if j < i {
        assert groups[j].key != groups[i].key;
      } else if j > i {
        assert groups[i].key != groups[j].key;
      }
    }
  }

  /** A group that is no longer in the form: patching it leaves the form's value as it was. */
  lemma PatchOfRemovedGroup(groups: seq<ItemGroup>, key: nat, d: PatchData)
    requires forall j :: 0 <= j < |groups| ==> groups[j].key != key
    ensures PatchedForm(groups, key, d) == groups
  {
    ItemLists.UpdatedWhereNoMatch(groups, HasKey(key), (g: ItemGroup) => Patched(g, d));
  }

  /** The empty object a failed call yields patches nothing. */
  lemma FailedCallPatchesNothing(groups: seq<ItemGroup>, key: nat)
    ensures PatchedForm(groups, key, FailedCallData) == groups
  {
    var r := PatchedForm(groups, key, FailedCallData);
    assert forall j :: 0 <= j < |groups| ==> r[j] == groups[j];
  }

  /** A freshly built form has one group and nothing to pay, but fails validation until a link is entered. */
  lemma FreshFormValue(key: nat)
    ensures FormTotal([CreateItem(key)]) == 0.0
    ensures !FormValid([CreateItem(key)])
  {
    Seqs.SumSingleton(CreateItem(key), AmountOf);
  }

  /** Adding a default group leaves the form's sum as it was; removing a group takes out exactly its amount. */
  lemma AddRemoveTotals(groups: seq<ItemGroup>, key: nat, i: nat)
    ensures FormTotal(groups + [CreateItem(key)]) == FormTotal(groups)
    ensures i < |groups| ==> FormTotal(Seqs.RemoveAt(groups, i)) == FormTotal(groups) - AmountOf(groups[i])
  {
    Seqs.SumPush(groups, CreateItem(key), AmountOf);
    if i < |groups| {
      Seqs.SumRemoveAt(groups, i, AmountOf);
    }
  }

  /** A pending fetch: the form it was issued in, the group's identity and the position `i` it was issued for. */
  datatype Request = Request(form: nat, key: nat, index: nat)

  class CreateOrderModalComponent<T> {
    var display: bool
    /** `orderForm` is unset until the modal is first shown. */
    var hasForm: bool
    var groups: array<ItemGroup>
    var count: nat
    var total: real
    var loadingDetails: map<nat, bool>
    /** The number of the form `orderForm` refers to. */
    var form: nat
    /** The value of every replaced form, by number. */
    var retired: map<nat, seq<ItemGroup>>
    /** The identity the next created group receives. */
    var nextKey: nat
    const modals: Modals.ModalService<T>

    predicate Valid()
      reads this, groups, modals
    {
      && count <= groups.Length
      && modals.Valid()
      && KeysFresh(groups[..count], nextKey)
      && (forall n :: n in retired ==> n < form)
    }

    /** The current form's value: the groups in order. */
    function Items(): seq<ItemGroup>
      requires count <= groups.Length
      reads this, groups
    {
      groups[..count]
    }

    /** Whether the request was issued by this component, in the current form or in one since replaced. */
    predicate Issued(r: Request)
      reads this
    {
      (hasForm && r.form == form) || r.form in retired
    }

    constructor (modals: Modals.ModalService<T>)
      requires modals.Valid()
      ensures Valid() && this.modals == modals
      ensures !display && !hasForm && count == 0 && total == 0.0
      ensures loadingDetails == map[] && retired == map[] && form == 0
    {
      display := false;
      hasForm := false;
      groups := new ItemGroup[0];
      count := 0;
      total := 0.0;
      loadingDetails := map[];
      form := 0;
      retired := map[];
      nextKey := 0;
      this.modals := modals;
    }

    /** The subscriber's `reduce`: the sum over the current groups. */
    method ComputeTotal() returns (s: real)
      requires count <= groups.Length
      ensures s == FormTotal(Items())
    {
      s := 0.0;
      var k := 0;
      while k < count
        invariant 0 <= k <= count
        invariant s == FormTotal(groups[..k])
      {
        assert groups[..k + 1][..k] == groups[..k];
        s := s + AmountOf(groups[k]);
        k := k + 1;
      }
      assert groups[..count] == groups[..k];
    }

    /**
     * The `displayOrderModal$` subscriber, run for every value the order
     * cell emits: `display` follows the value, and each `true` builds a new
     * form with one default group. `total` is left as it was.
     */
    method OnDisplay(shown: bool)
      requires Valid()
      modifies this
      ensures Valid() && display == shown && total == old(total) && loadingDetails == old(loadingDetails)
      ensures !shown ==> hasForm == old(hasForm) && groups == old(groups) && count == old(count)
      ensures !shown ==> form == old(form) && retired == old(retired)
      ensures shown ==> hasForm && fresh(groups) && Items() == [CreateItem(old(nextKey))] && form == old(form) + 1
      ensures shown ==> retired == if old(hasForm) then old(retired)[old(form) := old(Items())] else old(retired)
    {
      display := shown;
      if shown {
        InitForm();
      }
    }

    method InitForm()
      requires Valid()
      modifies this
      ensures Valid() && hasForm && fresh(groups) && Items() == [CreateItem(old(nextKey))]
      ensures form == old(form) + 1 && nextKey == old(nextKey) + 1
      ensures retired == if old(hasForm) then old(retired)[old(form) := old(Items())] else old(retired)
      ensures display == old(display) && total == old(total) && loadingDetails == old(loadingDetails)
    {
      if hasForm {
        retired := retired[form := groups[..count]];
      }
      form := form + 1;
      groups := new ItemGroup[1];
      groups[0] := CreateItem(nextKey);
      count := 1;
      nextKey := nextKey + 1;
      hasForm := true;
      assert groups[..count] == [CreateItem(old(nextKey))];
    }

    /** `FormArray.push`, growing the storage when it is full. */
    method Push(g: ItemGroup)
      requires count <= groups.Length
      modifies this, groups
      ensures count == old(count) + 1 && count <= groups.Length
      ensures Items() == old(Items()) + [g]
      ensures groups == old(groups) || fresh(groups)
      ensures display == old(display) && hasForm == old(hasForm) && total == old(total) && nextKey == old(nextKey)
      ensures loadingDetails == old(loadingDetails) && form == old(form) && retired == old(retired)
    {
      if count == groups.Length {
        var bigger := new ItemGroup[2 * groups.Length + 1];
        var k := 0;
        while k < count
          invariant 0 <= k <= count
          invariant bigger[..k] == groups[..k]
          modifies bigger
        {
          bigger[k] := groups[k];
          k := k + 1;
        }
        groups := bigger;
      }
      groups[count] := g;
      count := count + 1;
    }

    /** `this.items.push(this.createItem())`: a default group with a new identity at the end. */
    method PushDefault()
      requires Valid()
      modifies this, groups
      ensures Valid() && Items() == old(Items()) + [CreateItem(old(nextKey))] && nextKey == old(nextKey) + 1
      ensures display == old(display) && hasForm == old(hasForm) && total == old(total)
      ensures loadingDetails == old(loadingDetails) && form == old(form) && retired == old(retired)
    {
      var key := nextKey;
      KeysFreshPush(Items(), key);
      Push(CreateItem(key));
      nextKey := nextKey + 1;
    }

    /** `addItem`: a default group at the end, then the subscriber's new total. */
    method AddItem()
      requires Valid() && hasForm
      modifies this, groups
      ensures Valid() && Items() == old(Items()) + [CreateItem(old(nextKey))]
      ensures total == FormTotal(Items()) && total == FormTotal(old(Items()))
      ensures display == old(display) && hasForm && loadingDetails == old(loadingDetails)
      ensures form == old(form) && retired == old(retired)
    {
      AddRemoveTotals(Items(), nextKey, 0);
      PushDefault();
      total := ComputeTotal();
    }

    /** `FormArray.removeAt(i)`: later groups shift down; an index past the end removes nothing. */
    method RemoveAt(i: nat)
      requires count <= groups.Length
      modifies this, groups
      ensures groups == old(groups)
      ensures count == if i < old(count) then old(count) - 1 else old(count)
      ensures Items() == Seqs.RemoveAt(old(Items()), i)
      ensures display == old(display) && hasForm == old(hasForm) && total == old(total) && nextKey == old(nextKey)
      ensures loadingDetails == old(loadingDetails) && form == old(form) && retired == old(retired)
    {
      if i < count {
        var k := i;
        while k < count - 1
          invariant i <= k <= count - 1
          invariant forall j :: 0 <= j < i ==> groups[j] == old(groups[j])
          invariant forall j :: i <= j < k ==> groups[j] == old(groups[j + 1])
          invariant forall j :: k < j < count ==> groups[j] == old(groups[j])
          modifies groups
        {
          groups[k] := groups[k + 1];
          k := k + 1;
        }
        ghost var before := old(groups[..count]);
        count := count - 1;
        Seqs.RemoveAtElements(before, i);
        assert groups[..count] == Seqs.RemoveAt(before, i);
      }
    }

    /** `removeItem(i)`: no guard, so the last group can go too; then the subscriber's new total. */
    method RemoveItem(i: nat)
      requires Valid() && hasForm
      modifies this, groups
      ensures Valid() && Items() == Seqs.RemoveAt(old(Items()), i)
      ensures total == FormTotal(Items())
      ensures i < old(count) ==> total == FormTotal(old(Items())) - AmountOf(old(Items())[i])
      ensures display == old(display) && hasForm && loadingDetails == old(loadingDetails)
      ensures form == old(form) && retired == old(retired)
    {
      ghost var before := Items();
      KeysFreshRemoveAt(before, i, nextKey);
      RemoveAt(i);
      if i < |before| {
        Seqs.RemoveAtElements(before, i);
        AddRemoveTotals(before, 0, i);
      }
      total := ComputeTotal();
    }

    /** The user changes one input of group `i`; the form emits and the subscriber writes the new total. */
    method EditItem(i: nat, e: FieldEdit)
      requires Valid() && hasForm && i < count
      modifies this, groups
      ensures Valid() && Items() == old(Items())[i := Edited(old(Items())[i], e)]
      ensures total == FormTotal(Items())
      ensures display == old(display) && hasForm && loadingDetails == old(loadingDetails)
      ensures form == old(form) && retired == old(retired)
    {
      groups[i] := Edited(groups[i], e);
      assert forall j :: 0 <= j < count ==> groups[j].key == old(groups[j]).key;
      total := ComputeTotal();
    }

    /**
     * The synchronous part of `fetchDetails(i)`: with an empty link nothing
     * happens; otherwise flag `i` goes up and the request remembers the
     * group, its form and `i`.
     */
    method FetchDetails(i: nat) returns (request: Option<Request>)
      requires Valid() && hasForm && i < count
      modifies this
      ensures groups == old(groups) && count == old(count) && total == old(total) && display == old(display)
      ensures hasForm && form == old(form) && retired == old(retired) && nextKey == old(nextKey)
      ensures Valid()
      ensures request.None? <==> old(Items())[i].productLink == ""
      ensures request.Some? ==> request.value == Request(form, groups[i].key, i) && Issued(request.value)
      ensures loadingDetails == if request.Some? then old(loadingDetails)[i := true] else old(loadingDetails)
    {
      if groups[i].productLink == "" {
        request := None;
      } else {
        loadingDetails := loadingDetails[i := true];
        request := Some(Request(form, groups[i].key, i));
      }
    }

    /** `patchValue` on the group with identity `key` in the current form. */
    method PatchCurrent(key: nat, d: PatchData)
      requires count <= groups.Length
      modifies groups
      ensures Items() == PatchedForm(old(Items()), key, d)
    {
      var k := 0;
      while k < count
        invariant 0 <= k <= count
        invariant forall j :: 0 <= j < k ==> groups[j] == if old(groups[j]).key == key then Patched(old(groups[j]), d) else old(groups[j])
        invariant forall j :: k <= j < count ==> groups[j] == old(groups[j])
      {
        if groups[k].key == key {
          groups[k] := Patched(groups[k], d);
        }
        k := k + 1;
      }
    }

    /**
     * A response to `request`. `Some(d)` is the success callback (a failed
     * call also arrives here, as `FailedCallData`): the group is patched in
     * whichever form holds it, and that form's subscriber writes that form's
     * sum into `total`. `None` is the error callback, which only clears the
     * flag. Either way flag `request.index` goes down.
     */
    method DeliverDetails(request: Request, response: Option<PatchData>)
      requires Valid() && Issued(request)
      modifies this, groups
      ensures Valid() && loadingDetails == old(loadingDetails)[request.index := false]
      ensures response.None? ==> Items() == old(Items()) && total == old(total) && retired == old(retired)
      ensures response.Some? && request.form == old(form) ==>
        Items() == PatchedForm(old(Items()), request.key, response.value) && total == FormTotal(Items()) && retired == old(retired)
      ensures response.Some? && request.form != old(form) ==>
        Items() == old(Items())
        && retired == old(retired)[request.form := PatchedForm(old(retired)[request.form], request.key, response.value)]
        && total == FormTotal(retired[request.form])
      ensures groups == old(groups) && count == old(count) && display == old(display) && hasForm == old(hasForm)
      ensures form == old(form) && nextKey == old(nextKey)
    {
      if response.Some? {
        var d := response.value;
        if request.form == form {
          PatchCurrent(request.key, d);
          assert forall j :: 0 <= j < count ==> groups[j].key == old(groups[j]).key;
          total := ComputeTotal();
        } else {
          var patched := PatchedForm(retired[request.form], request.key, d);
          retired := retired[request.form := patched];
          total := FormTotal(patched);
        }
      }
      loadingDetails := loadingDetails[request.index := false];
    }

    /** `close`: the service's order cell emits `false`, which this component's subscriber sees at once. */
    method Close()
      requires Valid()
      modifies this, modals
      ensures Valid() && !display
      ensures modals.Current() == Modals.Closed(old(modals.Current()), Modals.OrderModal)
      ensures modals.orderEmitted == old(modals.orderEmitted) + [false]
      ensures groups == old(groups) && count == old(count) && total == old(total) && hasForm == old(hasForm)
      ensures loadingDetails == old(loadingDetails) && form == old(form) && retired == old(retired)
    {
      modals.Close(Modals.OrderModal);
      display := false;
    }

    /** `onSubmit`: a valid form closes the modal; an invalid one changes nothing. */
    method OnSubmit() returns (closed: bool)
      requires Valid() && hasForm
      modifies this, modals
      ensures Valid() && closed == FormValid(old(Items()))
      ensures closed ==> !display && modals.Current() == Modals.Closed(old(modals.Current()), Modals.OrderModal)
      ensures !closed ==> display == old(display) && modals.Current() == old(modals.Current())
      ensures groups == old(groups) && count == old(count) && total == old(total)
      ensures loadingDetails == old(loadingDetails) && form == old(form) && retired == old(retired)
    {
      closed := forall j :: 0 <= j < count ==> groups[j].productLink != "";
      if closed {
        Close();
      }
    }
  }
}
