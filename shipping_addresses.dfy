/**
 * Loading the user's addresses into an ordering modal, as the react2
 * OrderModal and ProductModal both do: the list is stored, and the first
 * address marked default, if any, becomes the selected one.
 */
module ShippingAddresses {
  import opened Wrappers

  datatype Address = Address(id: string, isDefault: bool)

  /** Position `k` holds the first address marked default. */
  predicate FirstDefaultAt(addresses: seq<Address>, k: int)
  {
    0 <= k < |addresses| && addresses[k].isDefault && forall j :: 0 <= j < k ==> !addresses[j].isDefault
  }

  /** `addresses.find(a => a.is_default)`, reduced to the id the modal keeps. */
  function DefaultAddressId(addresses: seq<Address>): (r: Option<string>)
    ensures r.None? <==> forall k :: 0 <= k < |addresses| ==> !addresses[k].isDefault
    ensures r.Some? ==> exists k :: FirstDefaultAt(addresses, k) && addresses[k].id == r.value
  {
    if addresses == [] then None
    else if addresses[0].isDefault then (assert FirstDefaultAt(addresses, 0); Some(addresses[0].id))
    else
      var rest := DefaultAddressId(addresses[1..]);
      assert rest.Some? ==> exists k :: FirstDefaultAt(addresses, k) && addresses[k].id == rest.value by {
        if rest.Some? {
          var k' :| FirstDefaultAt(addresses[1..], k') && addresses[1..][k'].id == rest.value;
          assert FirstDefaultAt(addresses, k' + 1) by {
            forall j | 1 <= j < k' + 1 ensures !addresses[j].isDefault {
              assert addresses[1..][j - 1] == addresses[j];
            }
          }
        }
      }
      rest
  }

  /** The modal's `addresses` and `selectedAddress` cells after `loadAddresses` settles. */
  datatype AddressState = AddressState(addresses: seq<Address>, selected: string)

  /**
   * `loaded` is what `Address.list()` delivered, `None` when it failed: a
   * failure changes nothing; a list replaces the stored one and its default
   * address, when there is one, replaces the selection.
   */
  function AfterLoad(state: AddressState, loaded: Option<seq<Address>>): (r: AddressState)
    ensures loaded.None? ==> r == state
    ensures loaded.Some? ==> r.addresses == loaded.value
    ensures loaded.Some? && DefaultAddressId(loaded.value).None? ==> r.selected == state.selected
    ensures loaded.Some? && DefaultAddressId(loaded.value).Some? ==>
      exists k :: FirstDefaultAt(loaded.value, k) && loaded.value[k].id == r.selected
  {
    match loaded
    case None => state
    case Some(list) =>
      match DefaultAddressId(list)
      case Some(id) => AddressState(list, id)
      case None => AddressState(list, state.selected)
  }
}
