# Cargo dashboard: a verified model of its state rules

The repository is a cargo-forwarding dashboard written four times: a second
React app (pages, store, billing and i18n components), an older React app,
an Angular app, and a static page. Almost all of it is markup. This project
models the small sequential rules underneath that markup and proves what
they promise.

- **Line-item lists.** There are five versions: the parcel and order modals
  of the second React app, the order and parcel modals of the older React
  app, and the Angular order modal. They cover adding a blank item,
  removing one (by index or by id, with or without a last-item guard),
  editing one field, and the totals and service fee.
  - `ItemLists` defines each list operation once.
  - `CreateParcelModal`, `StoreOrderModal` and `FetchOrderModal` keep each
    modal's state cells in a class whose methods assign them.
    `ReactParcelModal` is pure transforms of the item list.
  - `CreateOrderModal` models the Angular `FormArray` as an array changed in
    place, with loops for the append, the shifting remove, the patch and
    the total.
- **Product order** (`ProductModal`): the quantity clamps, the order guard
  and its amounts, the reset after ordering, and the default address.
- **Modal coordinator** (`Modals`): the Angular service's four
  `BehaviorSubject` cells and the values each has emitted.
- **Translation** (`Language`): the three translation tables, `t`'s dotted
  lookup with its English fallback, the language picked on mount, and
  `changeLanguage`.
- **Billing:** the card-number formatter, card-type detection and CVV
  filter (`AddCardModal`), and the default-card choice (`PaymentMethods`).
- **Pages:**
  - the dashboard counters (`DashboardStats`);
  - the parcel, store and Angular dashboard filters (`ParcelsPage`,
    `StorePage`, `AngularDashboard`);
  - the account form and its save payload (`AccountPage`);
  - the shipping-rate tables (`TariffPlans`).
- **Shared helpers:**
  - `Seqs` holds sequence helpers such as filter, sum and remove-at;
  - `Text` holds string helpers such as lower-casing, split/join and
    decimal digits;
  - `FormInputs` models the `parse(v) || default` input rules;
  - `ShippingAddresses` covers the address pick;
  - `Wrappers` holds `Option`.

Conventions:

- Amounts are exact `real`s.
- `parseFloat` and `parseInt` are not modelled. Their results come in as
  `Option` values (`None` standing for `NaN`), so `parse(v) || d` means "a
  missing or zero result gives `d`".
- A JavaScript object whose keys are computed is a list of entries in key
  order.
- Every remote call becomes two events: the request, and its outcome, which
  is an input.

### Mechanisms the code does not have

The model states the following facts about the code:

- There is no sequence or staleness check on fetch responses. The last
  response to arrive is applied to whatever list exists then.
- The Angular loading flags are keyed by the position `i` captured at
  request time, not by item identity.
- Only the second React app's modals refuse, in the handler, to remove the
  last item. The older React modals only hide the remove button, and the
  Angular `removeItem` has no guard at all.
- The modal service is four fixed cells written by `open` and `close`, not
  a generic subscribe/unsubscribe coordinator.
- The Angular fetch patches the group object captured at request time,
  wherever that group now sits. This can be a form that has since been
  replaced, whose still-live subscription then writes that form's sum into
  `total`.

## Model

| member | source | states |
|---|---|---|
| FormInputs.IntOr | my-app-react2/Components/parcels/CreateParcelModal.jsx:243 | `parseInt(v) \|\| d`: a non-zero parse result is kept; NaN and 0 both give the default |
| FormInputs.RealOr | my-app-react2/Components/parcels/CreateParcelModal.jsx:254 | `parseFloat(v) \|\| d`: a non-zero parse result is kept; NaN and 0 both give the default |
| FormInputs.TextOr | my-app-react/src/components/OrderModal.js:47 | `s \|\| d` on a possibly missing string: a present non-empty string is kept, a missing or empty one gives the default |
| FormInputs.IntOrOneNeverZero | my-app-react2/Components/parcels/CreateParcelModal.jsx:243 | with default 1 the quantity input can never yield 0 |
| FormInputs.Truncate | my-app-react/src/components/OrderModal.js:15 | `parseInt` of a number written in plain decimal notation truncates toward zero: the result is within 1 of the input, on the side of zero |
| ItemLists.Appended | my-app-react2/Components/parcels/CreateParcelModal.jsx:32-44 | appending a blank item: one more item, every earlier item unchanged in place, the blank last |
| ItemLists.RemovedKeepingOne | my-app-react2/Components/parcels/CreateParcelModal.jsx:46-53 | removal by index is refused with one item left; otherwise exactly the indexed item goes and the rest keep their order; a non-empty list stays non-empty |
| ItemLists.UpdatedAt | my-app-react2/Components/parcels/CreateParcelModal.jsx:55-62 | the `map` by index: same length, only the indexed item is edited, every other item unchanged |
| ItemLists.UpdatedWhere | my-app-react/src/components/OrderModal.js:21-23 | the `map` by id: same length, each matching item edited, each other item unchanged |
| ItemLists.SumAppended | my-app-react2/Components/parcels/CreateParcelModal.jsx:32-44 | a total over the list grows by exactly the appended item's term |
| ItemLists.SumRemovedKeepingOne | my-app-react2/Components/parcels/CreateParcelModal.jsx:46-53 | a removal that happens subtracts exactly the removed item's term from a total |
| ItemLists.SumUpdatedAt | my-app-react2/Components/parcels/CreateParcelModal.jsx:55-62 | editing one item replaces that item's term in a total and nothing else |
| ItemLists.SumUpdatedWhere | my-app-react/src/components/OrderModal.js:21-23 | an edit by id that keeps every term leaves the total unchanged |
| ItemLists.SumOfPointwiseEqual | my-app-react/src/components/OrderModal.js:13-17 | two lists whose items have equal terms at every position have the same total |
| ItemLists.RemovedWhereSpec | my-app-react/src/components/OrderModal.js:29-31 | removal by id keeps an item iff it does not match, in the original order |
| ItemLists.SumRemovedWhere | my-app-react/src/components/OrderModal.js:29-31 | after removal by id the total is the old total with the matching items' terms counted as 0 |
| ItemLists.RemovedWhereUnique | my-app-react/src/components/OrderModal.js:29-31 | when exactly one item has the id, removal by id shortens the list by exactly one |
| ItemLists.UpdatedWhereNoMatch | my-app-react/src/components/OrderModal.js:46-48 | an edit for an id no item has leaves the list unchanged |
| ItemLists.UpdatedWhereTwice | my-app-react/src/components/OrderModal.js:46-48 | two edits of the same item, the second overwriting all the first wrote, equal the second alone |
| CreateParcelModal.Edited | my-app-react2/Components/parcels/CreateParcelModal.jsx:59 | `{...item, [field]: value}`: the named field takes the value, every other field is unchanged |
| CreateParcelModal.QuantityInput | my-app-react2/Components/parcels/CreateParcelModal.jsx:243 | the quantity edit is the parsed number when non-zero, else 1, and never 0 |
| CreateParcelModal.PriceInput | my-app-react2/Components/parcels/CreateParcelModal.jsx:254 | the price edit is the parsed number, or 0 when it does not parse |
| CreateParcelModal.WeightInput | my-app-react2/Components/parcels/CreateParcelModal.jsx:265 | the weight edit is the parsed number, or 0 when it does not parse |
| CreateParcelModal.Payload | my-app-react2/Components/parcels/CreateParcelModal.jsx:70-78 | the create payload carries the form data, Σ price×quantity, Σ weight×quantity and status `pending` |
| CreateParcelModal.InitialForm | my-app-react2/Components/parcels/CreateParcelModal.jsx:12-29 | the form starts with exactly one blank item (quantity 1, price 0, weight 0), so both totals start at 0 |
| CreateParcelModal.AddItemKeepsTotals | my-app-react2/Components/parcels/CreateParcelModal.jsx:32-44 | adding a blank item leaves both totals unchanged |
| CreateParcelModal.RemoveItemTotals | my-app-react2/Components/parcels/CreateParcelModal.jsx:46-53 | a removal takes exactly that item's value and weight out of the totals; with one item left nothing changes |
| CreateParcelModal.UpdateItemTotals | my-app-react2/Components/parcels/CreateParcelModal.jsx:55-62 | an edit changes the totals by that item's change only; editing a text field leaves them unchanged |
| CreateParcelModal.ParcelForm.constructor | my-app-react2/Components/parcels/CreateParcelModal.jsx:12-30 | the form starts with the initial data and not submitting |
| CreateParcelModal.ParcelForm.AddItem | my-app-react2/Components/parcels/CreateParcelModal.jsx:32-44 | only the item list changes, to the list with a blank item appended |
| CreateParcelModal.ParcelForm.RemoveItem | my-app-react2/Components/parcels/CreateParcelModal.jsx:46-53 | only the item list changes, by the guarded removal, and it never becomes empty |
| CreateParcelModal.ParcelForm.UpdateItem | my-app-react2/Components/parcels/CreateParcelModal.jsx:55-62 | only the indexed item's named field changes |
| CreateParcelModal.ParcelForm.BeginSubmit | my-app-react2/Components/parcels/CreateParcelModal.jsx:64-78 | submitting starts, the data is untouched, and the payload is built from the current data |
| CreateParcelModal.ParcelForm.CompleteSubmit | my-app-react2/Components/parcels/CreateParcelModal.jsx:80-106 | submitting ends; a successful create resets the form to its initial data, a failed one keeps the data |
| ReactParcelModal.Edited | my-app-react/src/components/ParcelModal.js:8 | `{...item, [field]: value}`: the id is kept, the named field takes the input's text, every other field is unchanged |
| ReactParcelModal.ItemsAfterChange | my-app-react/src/components/ParcelModal.js:7-9 | an edit applies to every item with that id and to no other; the length is unchanged |
| ReactParcelModal.ItemsAfterAdd | my-app-react/src/components/ParcelModal.js:11-13 | adding appends a blank item whose id is the clock reading, leaving the earlier items unchanged |
| ReactParcelModal.RemoveItemKeepsOthers | my-app-react/src/components/ParcelModal.js:15-17 | removal by id keeps exactly the items with other ids, in their order |
| ReactParcelModal.RemoveUniqueItem | my-app-react/src/components/ParcelModal.js:15-17 | with distinct ids, removing an existing item shortens the list by exactly one |
| ReactParcelModal.RemoveControlKeepsOneItem | my-app-react/src/components/ParcelModal.js:41-43 | the remove control is shown only with more than one item, so with distinct ids a click never empties the list |
| ReactParcelModal.ItemLabels | my-app-react/src/components/ParcelModal.js:44 | one heading per item, `Item` followed by its position counted from 1 |
| ReactParcelModal.ItemLabelsDistinct | my-app-react/src/components/ParcelModal.js:44 | no two items get the same heading |
| FetchOrderModal.Edited | my-app-react/src/components/OrderModal.js:22 | `{...item, [field]: value}`: the id is kept, the named field takes the input's text, every other field is unchanged |
| FetchOrderModal.RawOr | my-app-react/src/components/OrderModal.js:47 | `productData.price \|\| ''`: a missing, empty or zero price becomes the empty text, any other value is kept |
| FetchOrderModal.Filled | my-app-react/src/components/OrderModal.js:47 | a fetched description overwrites name, price, colour and size (each with its fallback) and keeps id, link, quantity and category |
| FetchOrderModal.ItemsAfterResponse | my-app-react/src/components/OrderModal.js:43-51 | a failed call or unparsable response leaves the items unchanged |
| FetchOrderModal.InitialState | my-app-react/src/components/OrderModal.js:5-6 | the list starts with one blank item with id 1, quantity 1, price `''`, and its total is 0 |
| FetchOrderModal.AddItemKeepsTotal | my-app-react/src/components/OrderModal.js:25-27 | a blank item adds nothing, so adding one leaves the total unchanged |
| FetchOrderModal.RemoveItemTotal | my-app-react/src/components/OrderModal.js:29-31 | after removal by id the total no longer counts the removed items and still counts every other item |
| FetchOrderModal.TextEditKeepsTotal | my-app-react/src/components/OrderModal.js:12-23 | editing any field other than price or quantity leaves the total unchanged |
| FetchOrderModal.RemoveUniqueItem | my-app-react/src/components/OrderModal.js:29-31 | with distinct ids, removing an existing item shortens the list by exactly one |
| FetchOrderModal.RemoveButtonKeepsOneItem | my-app-react/src/components/OrderModal.js:86 | the remove button is rendered only while more than one item exists, so with distinct ids a click never empties the list |
| FetchOrderModal.RemoveItemKeepsOthers | my-app-react/src/components/OrderModal.js:29-31 | removal by id keeps exactly the items with other ids, in their order |
| FetchOrderModal.ResponseForRemovedItem | my-app-react/src/components/OrderModal.js:46-48 | a response for an item removed meanwhile changes nothing |
| FetchOrderModal.LastResponseWins | my-app-react/src/components/OrderModal.js:46-48 | of two successful responses for one item, the one delivered last decides it |
| FetchOrderModal.OrderForm.constructor | my-app-react/src/components/OrderModal.js:5-19 | the modal starts with the initial list, no loading flags, and a total equal to that list's total |
| FetchOrderModal.OrderForm.ChangeItem | my-app-react/src/components/OrderModal.js:12-23 | the items change by the edit, and the total equals the recomputed total again |
| FetchOrderModal.OrderForm.AddItem | my-app-react/src/components/OrderModal.js:25-27 | a blank item with the clock reading as id is appended, and the total is recomputed |
| FetchOrderModal.OrderForm.RemoveItem | my-app-react/src/components/OrderModal.js:29-31 | the items with that id are removed, and the total is recomputed |
| FetchOrderModal.OrderForm.RequestDetails | my-app-react/src/components/OrderModal.js:33-38 | an empty link issues no request and changes nothing; otherwise only the item's loading flag goes up |
| FetchOrderModal.OrderForm.DeliverDetails | my-app-react/src/components/OrderModal.js:43-54 | the outcome is merged into the current list on success, and the item's flag goes down either way |
| StoreOrderModal.Edited | my-app-react2/Components/store/OrderModal.jsx:71 | `{...item, [field]: value}`: the named field takes the value, every other field is unchanged |
| StoreOrderModal.PriceInput | my-app-react2/Components/store/OrderModal.jsx:197 | the price edit is the parsed number, or 0 when it does not parse |
| StoreOrderModal.QuantityInput | my-app-react2/Components/store/OrderModal.jsx:208 | the quantity edit is the parsed number when non-zero, else 1, and never 0 |
| StoreOrderModal.Payload | my-app-react2/Components/store/OrderModal.jsx:86-98 | the payload: order number `ORD-` plus the clock reading, the form's URL, items and instructions, the selected address, status `pending`, Σ price×quantity and a 10% fee that add up to the shown grand total |
| StoreOrderModal.GrandTotalIsElevenTenths | my-app-react2/Components/store/OrderModal.jsx:109-110 | the grand total is 1.1 × the products total; with non-negative prices and quantities the fee lies between 0 and the grand total |
| StoreOrderModal.OrderNumbersFollowClock | my-app-react2/Components/store/OrderModal.jsx:90 | order numbers taken at different clock readings differ |
| StoreOrderModal.RemoveButtonMeansRemovable | my-app-react2/Components/store/OrderModal.jsx:58-65 | the remove button is shown for an item exactly when clicking it removes that item |
| StoreOrderModal.InitialForm | my-app-react2/Components/store/OrderModal.jsx:25-36 | an opened form has one blank item (link and name empty, price 0, quantity 1) and total and fee 0 |
| StoreOrderModal.AddItemKeepsTotal | my-app-react2/Components/store/OrderModal.jsx:51-56 | adding a blank item leaves the total and the fee unchanged |
| StoreOrderModal.RemoveItemTotal | my-app-react2/Components/store/OrderModal.jsx:58-65 | a removal takes exactly that item's amount out of the total; with one item left nothing changes |
| StoreOrderModal.UpdateItemTotal | my-app-react2/Components/store/OrderModal.jsx:67-74 | an edit changes the total by that item's change only; link and name edits leave it unchanged |
| StoreOrderModal.OrderForm.constructor | my-app-react2/Components/store/OrderModal.jsx:14-22 | the initial cells: the initial data, no addresses, no selection, not submitting, no status |
| StoreOrderModal.OrderForm.Open | my-app-react2/Components/store/OrderModal.jsx:25-36 | opening clears the status and resets the form data, touching nothing else |
| StoreOrderModal.OrderForm.AddressesLoaded | my-app-react2/Components/store/OrderModal.jsx:38-49 | only the address cells change, as the address-loading rule says |
| StoreOrderModal.OrderForm.SetStoreUrl | my-app-react2/Components/store/OrderModal.jsx:138 | only the store URL changes |
| StoreOrderModal.OrderForm.SetSpecialInstructions | my-app-react2/Components/store/OrderModal.jsx:223 | only the special instructions change |
| StoreOrderModal.OrderForm.AddItem | my-app-react2/Components/store/OrderModal.jsx:51-56 | only the item list changes, to the list with a blank item appended |
| StoreOrderModal.OrderForm.RemoveItem | my-app-react2/Components/store/OrderModal.jsx:58-65 | only the item list changes, by the guarded removal, and it never becomes empty |
| StoreOrderModal.OrderForm.UpdateItem | my-app-react2/Components/store/OrderModal.jsx:67-74 | only the indexed item's named field changes |
| StoreOrderModal.OrderForm.Close | my-app-react2/Components/store/OrderModal.jsx:76-79 | closing clears the status and keeps the form data |
| StoreOrderModal.OrderForm.BeginSubmit | my-app-react2/Components/store/OrderModal.jsx:81-98 | submitting starts and the payload is built from the current form and selected address |
| StoreOrderModal.OrderForm.CompleteSubmit | my-app-react2/Components/store/OrderModal.jsx:100-106 | submitting ends with status `success` when the create succeeded and `error` when it failed; the form is not reset |
| ShippingAddresses.DefaultAddressId | my-app-react2/Components/store/ProductModal.jsx:29-32 | `find(a => a.is_default)`: none exactly when no address is default; otherwise the id of the first default address |
| ShippingAddresses.AfterLoad | my-app-react2/Components/store/OrderModal.jsx:38-49 | a failed load changes nothing; a loaded list replaces the stored one, and its first default address, if any, becomes the selection, else the selection stays |
| ProductModal.Decremented | my-app-react2/Components/store/ProductModal.jsx:196 | the minus button: one less, but never below 1 |
| ProductModal.TypedQuantity | my-app-react2/Components/store/ProductModal.jsx:203 | a typed quantity is kept when it parses to at least 1, and is 1 otherwise |
| ProductModal.Incremented | my-app-react2/Components/store/ProductModal.jsx:209 | the plus button raises the quantity by exactly 1 |
| ProductModal.DecrementUndoesIncrement | my-app-react2/Components/store/ProductModal.jsx:196-209 | minus undoes plus on every valid quantity |
| ProductModal.OrderFor | my-app-react2/Components/store/ProductModal.jsx:38-63 | no order without a product or a selected address; otherwise number `ORD-AC-` plus the clock reading, total price×quantity, fee 10% of it, status `confirmed`, payment `pending`, the store-URL and link fallbacks, and exactly one item with the chosen quantity, colour and size |
| ProductModal.SummaryMatchesOrder | my-app-react2/Components/store/ProductModal.jsx:237-248 | the summary total price×qty×1.1 equals subtotal plus fee, and the order carries that subtotal and fee |
| ProductModal.ProductForm.constructor | my-app-react2/Components/store/ProductModal.jsx:12-17 | the initial cells: quantity 1, no size, no colour, no addresses, not ordering |
| ProductModal.ProductForm.Decrement | my-app-react2/Components/store/ProductModal.jsx:196 | only the quantity changes, by the clamped decrement; it stays at least 1 |
| ProductModal.ProductForm.Increment | my-app-react2/Components/store/ProductModal.jsx:209 | only the quantity changes, up by one |
| ProductModal.ProductForm.TypeQuantity | my-app-react2/Components/store/ProductModal.jsx:203 | only the quantity changes, to the clamped typed value |
| ProductModal.ProductForm.SelectSize | my-app-react2/Components/store/ProductModal.jsx:161 | only the size changes |
| ProductModal.ProductForm.SelectColor | my-app-react2/Components/store/ProductModal.jsx:176 | only the colour changes |
| ProductModal.ProductForm.SelectAddress | my-app-react2/Components/store/ProductModal.jsx:219 | only the selected address changes |
| ProductModal.ProductForm.AddressesLoaded | my-app-react2/Components/store/ProductModal.jsx:25-36 | only the address cells change, as the address-loading rule says |
| ProductModal.ProductForm.BeginOrder | my-app-react2/Components/store/ProductModal.jsx:38-41 | without a product or an address nothing happens; otherwise ordering starts and the order is built from the current cells; a click on the enabled button (`disabled={isOrdering \|\| !selectedAddress}`, line 255) with a product shown always places an order, and once ordering starts the button is disabled |
| ProductModal.ProductForm.CompleteOrder | my-app-react2/Components/store/ProductModal.jsx:65-73 | ordering ends; a created order resets quantity to 1 and size and colour to empty, a failed one keeps them |
| Language.T | my-app-react2/Components/i18n/languageProvider.jsx:176-191 | `t` returns either the key itself or a non-empty value: a falsy result is never returned |
| Language.FirstIndex | my-app-react2/Components/i18n/languageProvider.jsx:180 | property lookup finds the first entry with the name: the index is in range exactly when the name is present, and no earlier entry has it |
| Language.Keys | my-app-react2/Components/i18n/languageProvider.jsx:194 | `Object.keys`: the entry names, in declaration order |
| Language.WalkUntilFalsySpec | my-app-react2/Components/i18n/languageProvider.jsx:176-191 | the main walk gives up exactly when some prefix of the key is missing or empty, and otherwise ends where the plain walk does |
| Language.TranslatesInCurrentLanguage | my-app-react2/Components/i18n/languageProvider.jsx:176-191 | when every segment resolves in the current language, `t` returns that language's value |
| Language.FallsBackToEnglish | my-app-react2/Components/i18n/languageProvider.jsx:181-187 | when a segment is missing in the current language and English has the key, `t` returns the English value |
| Language.FallsBackToKey | my-app-react2/Components/i18n/languageProvider.jsx:181-190 | when the key resolves neither in the current language nor in English, `t` returns the key itself |
| Language.NoneStaysNone | my-app-react2/Components/i18n/languageProvider.jsx:180 | `?.` on a missing value stays missing for all remaining segments |
| Language.WalkSameShape | my-app-react2/Components/i18n/languageProvider.jsx:176-191 | a key that reaches a value in one table reaches a value of the same shape in a table shaped alike |
| Language.WalkPrefixes | my-app-react2/Components/i18n/languageProvider.jsx:179-189 | a key that reaches a value passes through a value at every prefix |
| Language.WalkNoEmptyText | my-app-react2/Components/i18n/languageProvider.jsx:176-191 | in a table without empty strings every value reached has none either |
| Language.SidebarRussianShape | my-app-react2/Components/i18n/languageProvider.jsx:54-64 | the Russian `sidebar` section has the English keys, in order |
| Language.SidebarUzbekShape | my-app-react2/Components/i18n/languageProvider.jsx:102-112 | the Uzbek `sidebar` section has the English keys, in order |
| Language.SidebarEnglishTextsNonEmpty | my-app-react2/Components/i18n/languageProvider.jsx:6-16 | no English `sidebar` string is empty |
| Language.SidebarRussianTextsNonEmpty | my-app-react2/Components/i18n/languageProvider.jsx:54-64 | no Russian `sidebar` string is empty |
| Language.SidebarUzbekTextsNonEmpty | my-app-react2/Components/i18n/languageProvider.jsx:102-112 | no Uzbek `sidebar` string is empty |
| Language.DashboardRussianShape | my-app-react2/Components/i18n/languageProvider.jsx:65-68 | the Russian `dashboard` section has the English keys, in order |
| Language.DashboardUzbekShape | my-app-react2/Components/i18n/languageProvider.jsx:113-116 | the Uzbek `dashboard` section has the English keys, in order |
| Language.DashboardEnglishTextsNonEmpty | my-app-react2/Components/i18n/languageProvider.jsx:17-20 | no English `dashboard` string is empty |
| Language.DashboardRussianTextsNonEmpty | my-app-react2/Components/i18n/languageProvider.jsx:65-68 | no Russian `dashboard` string is empty |
| Language.DashboardUzbekTextsNonEmpty | my-app-react2/Components/i18n/languageProvider.jsx:113-116 | no Uzbek `dashboard` string is empty |
| Language.StoreRussianShape | my-app-react2/Components/i18n/languageProvider.jsx:69-90 | the Russian `store` section has the English keys, in order |
| Language.StoreUzbekShape | my-app-react2/Components/i18n/languageProvider.jsx:117-138 | the Uzbek `store` section has the English keys, in order |
| Language.StoreEnglishTextsNonEmpty | my-app-react2/Components/i18n/languageProvider.jsx:21-42 | no English `store` string is empty |
| Language.StoreRussianTextsNonEmpty | my-app-react2/Components/i18n/languageProvider.jsx:69-90 | no Russian `store` string is empty |
| Language.StoreUzbekTextsNonEmpty | my-app-react2/Components/i18n/languageProvider.jsx:117-138 | no Uzbek `store` string is empty |
| Language.OrderModalRussianShape | my-app-react2/Components/i18n/languageProvider.jsx:91-99 | the Russian `order_modal` section has the English keys, in order |
| Language.OrderModalUzbekShape | my-app-react2/Components/i18n/languageProvider.jsx:139-147 | the Uzbek `order_modal` section has the English keys, in order |
| Language.OrderModalEnglishTextsNonEmpty | my-app-react2/Components/i18n/languageProvider.jsx:43-51 | no English `order_modal` string is empty |
| Language.OrderModalRussianTextsNonEmpty | my-app-react2/Components/i18n/languageProvider.jsx:91-99 | no Russian `order_modal` string is empty |
| Language.OrderModalUzbekTextsNonEmpty | my-app-react2/Components/i18n/languageProvider.jsx:139-147 | no Uzbek `order_modal` string is empty |
| Language.EnglishTableComplete | my-app-react2/Components/i18n/languageProvider.jsx:5-51 | the English table has no empty string |
| Language.RussianTableComplete | my-app-react2/Components/i18n/languageProvider.jsx:53-99 | the Russian table has exactly the English keys at every level, in order, and no empty string |
| Language.UzbekTableComplete | my-app-react2/Components/i18n/languageProvider.jsx:101-147 | the Uzbek table has exactly the English keys at every level, in order, and no empty string |
| Language.SameShapeReflexive | my-app-react2/Components/i18n/languageProvider.jsx:4-149 | every table has its own shape |
| Language.NoFallbackForCompleteTables | my-app-react2/Components/i18n/languageProvider.jsx:176-191 | for a language whose table is complete, `t` answers every key English knows from that language's own table and never falls back |
| Language.AvailableLanguages | my-app-react2/Components/i18n/languageProvider.jsx:194 | `availableLanguages` is exactly `en`, `ru`, `uz`, and these are the languages `translations[language]` finds |
| Language.Selected | my-app-react2/Components/i18n/languageProvider.jsx:156-169 | on mount a saved supported language wins; else a supported browser prefix is chosen and saved; else nothing changes; the result is the old language or a supported one |
| Language.MountIsStable | my-app-react2/Components/i18n/languageProvider.jsx:156-169 | mounting again with what the first mount left behind changes nothing |
| Language.ChangedLanguageSurvivesReload | my-app-react2/Components/i18n/languageProvider.jsx:171-174 | a supported language passed to `changeLanguage` is the one chosen on the next mount, whatever the browser reports |
| Language.LanguageProvider.constructor | my-app-react2/Components/i18n/languageProvider.jsx:154 | the first render uses `en` |
| Language.LanguageProvider.Mount | my-app-react2/Components/i18n/languageProvider.jsx:156-169 | the language and the stored language become what the mount rule selects |
| Language.LanguageProvider.ChangeLanguage | my-app-react2/Components/i18n/languageProvider.jsx:171-174 | the language is set and stored, supported or not |
| AddCardModal.CardType | my-app-react2/Components/billing/AddCardModal.jsx:20-26 | the detected type is `visa`, `mastercard`, `amex` or empty |
| AddCardModal.Chunks | my-app-react2/Components/billing/AddCardModal.jsx:30 | `match(/.{1,4}/g)` cuts a non-empty string into runs of four with a last run of one to four; the number of runs is the length divided by four, rounded up |
| AddCardModal.RemoveWhitespaceClean | my-app-react2/Components/billing/AddCardModal.jsx:21-35 | removing whitespace leaves a string without whitespace, so removing it again changes nothing |
| AddCardModal.JoinChunks | my-app-react2/Components/billing/AddCardModal.jsx:30-31 | joining the runs with spaces keeps exactly the string's characters and adds one space between runs |
| AddCardModal.ChunksHaveNoSpace | my-app-react2/Components/billing/AddCardModal.jsx:30 | no run of a whitespace-free string contains a space |
| AddCardModal.FormatRoundTrip | my-app-react2/Components/billing/AddCardModal.jsx:28-32 | formatting only inserts spaces: without whitespace, the formatted number is the input without whitespace |
| AddCardModal.FormatGroups | my-app-react2/Components/billing/AddCardModal.jsx:28-32 | splitting the formatted number at spaces gives back the runs of four, and its length is the digits plus one space per gap |
| AddCardModal.FormatFitsInput | my-app-react2/Components/billing/AddCardModal.jsx:36-100 | a number of at most 16 characters formats to at most 19, the field's `maxLength` |
| AddCardModal.FormatKeepsType | my-app-react2/Components/billing/AddCardModal.jsx:20-32 | formatting never changes the detected type, and formatting a formatted number changes nothing |
| AddCardModal.CardTypeByFirstDigit | my-app-react2/Components/billing/AddCardModal.jsx:20-26 | the type is `visa` iff the first non-space character is 4, `mastercard` iff 5, `amex` iff 3, and empty iff it is none of these |
| AddCardModal.AfterCardNumberChange | my-app-react2/Components/billing/AddCardModal.jsx:34-44 | input of more than 16 characters without whitespace is refused; otherwise the number becomes its formatted form and the type is detected from it, all other fields kept |
| AddCardModal.AfterCvvChange | my-app-react2/Components/billing/AddCardModal.jsx:147-152 | non-digits are dropped; more than four digits are refused, otherwise the CVV becomes the digits |
| AddCardModal.EmptyCardWellFormed | my-app-react2/Components/billing/AddCardModal.jsx:10-17 | the empty card data satisfies the form invariant |
| AddCardModal.HandlersKeepWellFormed | my-app-react2/Components/billing/AddCardModal.jsx:34-44 | both filtered handlers keep the invariant: formatted number of at most 16 characters and at most 19 shown, type matching the number, CVV of at most four digits |
| AddCardModal.Months | my-app-react2/Components/billing/AddCardModal.jsx:68 | twelve entries, entry `i` being `i + 1` padded to two characters |
| AddCardModal.MonthsAreTwoDigits | my-app-react2/Components/billing/AddCardModal.jsx:68 | every month is two digits whose value is its position plus one |
| AddCardModal.Years | my-app-react2/Components/billing/AddCardModal.jsx:66-67 | ten consecutive years starting at the current one |
| AddCardModal.CardForm.constructor | my-app-react2/Components/billing/AddCardModal.jsx:10-18 | every field empty, not submitting |
| AddCardModal.CardForm.ChangeHolderName | my-app-react2/Components/billing/AddCardModal.jsx:86 | only the holder name changes |
| AddCardModal.CardForm.ChangeCardNumber | my-app-react2/Components/billing/AddCardModal.jsx:34-44 | the card data becomes what the number handler computes, and the shown number has at most 19 characters |
| AddCardModal.CardForm.SelectMonth | my-app-react2/Components/billing/AddCardModal.jsx:116 | only the month changes |
| AddCardModal.CardForm.SelectYear | my-app-react2/Components/billing/AddCardModal.jsx:130 | only the year changes |
| AddCardModal.CardForm.ChangeCvv | my-app-react2/Components/billing/AddCardModal.jsx:146-152 | the card data becomes what the CVV handler computes |
| AddCardModal.CardForm.BeginSubmit | my-app-react2/Components/billing/AddCardModal.jsx:46-48 | the form is marked as submitting and the data is kept |
| AddCardModal.CardForm.CompleteSubmit | my-app-react2/Components/billing/AddCardModal.jsx:51-63 | every field is emptied and submission ends |
| PaymentMethods.WithDefault | my-app-react2/Components/billing/PaymentMethods.jsx:26-31 | same length; each card is rewritten with `isDefault` set to whether its id is the chosen one |
| PaymentMethods.ExactlyChosenCardIsDefault | my-app-react2/Components/billing/PaymentMethods.jsx:26-31 | with distinct ids, the chosen card and no other is the default afterwards |
| PaymentMethods.AbsentIdLeavesNoDefault | my-app-react2/Components/billing/PaymentMethods.jsx:26-31 | choosing an id no card has leaves no default card |
| PaymentMethods.OnlyDefaultFlagChanges | my-app-react2/Components/billing/PaymentMethods.jsx:27-30 | every field but the default flag, and the order, stay as they were |
| PaymentMethods.WithDefaultIdempotent | my-app-react2/Components/billing/PaymentMethods.jsx:26-31 | choosing the same card twice is choosing it once |
| PaymentMethods.MockCardsHaveOneDefault | my-app-react2/Components/billing/PaymentMethods.jsx:7-10 | the sample cards have distinct ids and exactly one default, the first |
| PaymentMethods.SetDefaultButtonMovesDefault | my-app-react2/Components/billing/PaymentMethods.jsx:59-65 | the button appears only on a non-default card, and clicking it makes that card the only default |
| DashboardStats.StatsMeaning | my-app-react2/Pages/Dashboard.jsx:68-75 | every parcel counts once; the active parcels are exactly those with an active status and never more than all; the pending orders likewise; the spending sum adds each completed payment's amount and nothing for the others |
| DashboardStats.OnlyCompletedPaymentsCount | my-app-react2/Pages/Dashboard.jsx:72-74 | changing the amount of a payment that is not completed leaves the spending sum unchanged |
| DashboardStats.AfterLoad | my-app-react2/Pages/Dashboard.jsx:40-66 | loading ends either way; on success the page holds the loaded user and lists, on error empty lists and no user |
| DashboardStats.FailedLoadShowsZeros | my-app-react2/Pages/Dashboard.jsx:57-75 | after a failed load every counter and the spending sum are zero |
| DashboardStats.RecentActivity | my-app-react2/Pages/Dashboard.jsx:119 | at most the first three payments, in order: exactly three when there are that many, and all of them when there are fewer |
| AngularDashboard.FilteredForSpec | my-angular-app/src/app/dashboard/dashboard.component.ts:32-38 | under `All` the list is every parcel; under another tab a parcel is shown exactly when it has that status; the order is kept |
| AngularDashboard.EachSampleTabShowsOneParcel | my-angular-app/src/app/dashboard/dashboard.component.ts:12-38 | each tab other than `All` shows exactly one sample parcel, one with that status |
| AngularDashboard.StatusClass | my-angular-app/src/app/dashboard/dashboard.component.ts:40-47 | the class for `Delivered`, `Sent` and `In Warehouse`, and the slate class for every other status |
| AngularDashboard.StatusClassesDistinct | my-angular-app/src/app/dashboard/dashboard.component.ts:40-47 | the three known statuses get three different classes, none of them the default one |
| AngularDashboard.DashboardComponent.constructor | my-angular-app/src/app/dashboard/dashboard.component.ts:12-21 | tab `All`, the sample parcels, the filtered list being all of them |
| AngularDashboard.DashboardComponent.FilterParcels | my-angular-app/src/app/dashboard/dashboard.component.ts:32-38 | the filtered list becomes the parcels the active tab shows |
| AngularDashboard.DashboardComponent.NgOnInit | my-angular-app/src/app/dashboard/dashboard.component.ts:23-25 | the filtered list matches the active tab |
| AngularDashboard.DashboardComponent.SetActiveTab | my-angular-app/src/app/dashboard/dashboard.component.ts:27-30 | the tab is set and the filtered list matches it |
| AngularDashboard.DashboardComponent.OpenParcelModal | my-angular-app/src/app/dashboard/dashboard.component.ts:49 | the service's parcel cell becomes shown, the others unchanged |
| AngularDashboard.DashboardComponent.OpenOrderModal | my-angular-app/src/app/dashboard/dashboard.component.ts:50 | the service's order cell becomes shown, the others unchanged |
| AngularDashboard.DashboardComponent.OpenSmartStatus | my-angular-app/src/app/dashboard/dashboard.component.ts:51 | the smart-status cell holds the parcel, the others unchanged |
| AngularDashboard.InitialDashboardShowsAll | my-angular-app/src/app/dashboard/dashboard.component.ts:13-25 | after initialisation every sample parcel is shown |
| Modals.Opened | my-angular-app/src/app/services/modal.service.ts:16-21 | only the cell the id names is written: the three flags become true, the smart-status cell takes the data; any other id changes nothing |
| Modals.Closed | my-angular-app/src/app/services/modal.service.ts:23-28 | only the cell the id names is written: the flags become false, the smart-status cell null |
| Modals.UnknownIdsChangeNothing | my-angular-app/src/app/services/modal.service.ts:16-28 | an id that names no modal changes no cell |
| Modals.OpenCloseIdempotent | my-angular-app/src/app/services/modal.service.ts:16-28 | opening twice is opening once; closing twice is closing once |
| Modals.OpenThenCloseRestores | my-angular-app/src/app/services/modal.service.ts:6-28 | from the initial values, opening then closing a modal restores them |
| Modals.DifferentModalsCommute | my-angular-app/src/app/services/modal.service.ts:16-28 | opening one modal and closing another give the same cells in either order |
| Modals.ModalService.constructor | my-angular-app/src/app/services/modal.service.ts:6-9 | each subject starts with one value: false, false, null, false |
| Modals.ModalService.Open | my-angular-app/src/app/services/modal.service.ts:16-21 | the named subject emits its new value once, the others emit nothing, and the current values are as `Opened` says |
| Modals.ModalService.Close | my-angular-app/src/app/services/modal.service.ts:23-28 | the named subject emits its closed value once, the others emit nothing, and the current values are as `Closed` says |
| CreateOrderModal.Edited | my-angular-app/src/app/modals/create-order-modal/create-order-modal.component.ts:33 | an input edit changes only its own field of the group |
| CreateOrderModal.Patched | my-angular-app/src/app/modals/create-order-modal/create-order-modal.component.ts:41 | `patchValue` overwrites exactly the fields present in the data |
| CreateOrderModal.KeysFreshPush | my-angular-app/src/app/modals/create-order-modal/create-order-modal.component.ts:31 | appending a new group keeps group identities distinct and fresh |
| CreateOrderModal.KeysFreshRemoveAt | my-angular-app/src/app/modals/create-order-modal/create-order-modal.component.ts:32 | removing a group keeps group identities distinct and fresh |
| CreateOrderModal.PatchLandsOnOneGroup | my-angular-app/src/app/modals/create-order-modal/create-order-modal.component.ts:35-41 | the response is patched into the captured group, wherever it now sits, and no other |
| CreateOrderModal.PatchOfRemovedGroup | my-angular-app/src/app/modals/create-order-modal/create-order-modal.component.ts:35-41 | a response for a group no longer in the form leaves the form unchanged |
| CreateOrderModal.FailedCallPatchesNothing | my-angular-app/src/app/modals/create-order-modal/create-order-modal.component.ts:40-41 | the empty object a failed call delivers changes no field |
| CreateOrderModal.FreshFormValue | my-angular-app/src/app/modals/create-order-modal/create-order-modal.component.ts:26-33 | a new form has one group, sums to 0, and is invalid until a link is entered |
| CreateOrderModal.AddRemoveTotals | my-angular-app/src/app/modals/create-order-modal/create-order-modal.component.ts:29-33 | adding a default group keeps the sum; removing a group subtracts exactly its price times quantity |
| CreateOrderModal.CreateOrderModalComponent.constructor | my-angular-app/src/app/modals/create-order-modal/create-order-modal.component.ts:15-18 | hidden, no form, total 0, no loading flags |
| CreateOrderModal.CreateOrderModalComponent.ComputeTotal | my-angular-app/src/app/modals/create-order-modal/create-order-modal.component.ts:33 | the `reduce` loop returns the sum of price times quantity over the groups |
| CreateOrderModal.CreateOrderModalComponent.OnDisplay | my-angular-app/src/app/modals/create-order-modal/create-order-modal.component.ts:23 | `display` follows the emitted value; `true` builds a new form with one default group and keeps the old total; `false` changes nothing else |
| CreateOrderModal.CreateOrderModalComponent.InitForm | my-angular-app/src/app/modals/create-order-modal/create-order-modal.component.ts:25-28 | a new form with one default group replaces the old one, which stays subscribed; the total is not recomputed |
| CreateOrderModal.CreateOrderModalComponent.Push | my-angular-app/src/app/modals/create-order-modal/create-order-modal.component.ts:31 | the groups become the old groups plus the new one |
| CreateOrderModal.CreateOrderModalComponent.PushDefault | my-angular-app/src/app/modals/create-order-modal/create-order-modal.component.ts:29-31 | a default group with a fresh identity is appended |
| CreateOrderModal.CreateOrderModalComponent.AddItem | my-angular-app/src/app/modals/create-order-modal/create-order-modal.component.ts:31-33 | a default group is appended and the total is the new sum, equal to the old sum |
| CreateOrderModal.CreateOrderModalComponent.RemoveAt | my-angular-app/src/app/modals/create-order-modal/create-order-modal.component.ts:32 | the group at `i` is removed and later ones shift down; an index past the end removes nothing |
| CreateOrderModal.CreateOrderModalComponent.RemoveItem | my-angular-app/src/app/modals/create-order-modal/create-order-modal.component.ts:32-33 | the group is removed with no guard for the last one, and the total drops by exactly its amount |
| CreateOrderModal.CreateOrderModalComponent.EditItem | my-angular-app/src/app/modals/create-order-modal/create-order-modal.component.ts:33 | one field of one group changes and the total is the new sum |
| CreateOrderModal.CreateOrderModalComponent.FetchDetails | my-angular-app/src/app/modals/create-order-modal/create-order-modal.component.ts:34-39 | an empty link does nothing; otherwise flag `i` goes up and the request captures the group, its form and `i` |
| CreateOrderModal.CreateOrderModalComponent.PatchCurrent | my-angular-app/src/app/modals/create-order-modal/create-order-modal.component.ts:41 | the current form's groups become the patched form |
| CreateOrderModal.CreateOrderModalComponent.DeliverDetails | my-angular-app/src/app/modals/create-order-modal/create-order-modal.component.ts:33-43 | flag `i` goes down either way; on success the captured group is patched in whichever form holds it and that form's sum becomes the total; on error nothing else changes |
| CreateOrderModal.CreateOrderModalComponent.Close | my-angular-app/src/app/modals/create-order-modal/create-order-modal.component.ts:23-45 | the order cell emits false and the modal hides |
| CreateOrderModal.CreateOrderModalComponent.OnSubmit | my-angular-app/src/app/modals/create-order-modal/create-order-modal.component.ts:46 | the modal closes exactly when every product link is filled; otherwise nothing changes |
| AccountPage.Keys | my-app-react2/Pages/Account.jsx:14-22 | an object's keys: one per entry, in order |
| AccountPage.GetFindsKey | my-app-react2/Pages/Account.jsx:37-74 | reading a key yields a value exactly when the key is one of the object's keys, and that value belongs to the key's entry |
| AccountPage.GetDistinct | my-app-react2/Pages/Account.jsx:74 | when keys are distinct, each key reads its own entry's value |
| AccountPage.Set | my-app-react2/Pages/Account.jsx:52 | after the spread with a computed key, that key reads the new value and every other key reads as before |
| AccountPage.SetKeys | my-app-react2/Pages/Account.jsx:52 | the spread keeps the keys and their order, and appends the key when it is new |
| AccountPage.Delete | my-app-react2/Pages/Account.jsx:60 | after `delete` the key reads nothing, the other keys read as before, and no key is added |
| AccountPage.DeleteAbsent | my-app-react2/Pages/Account.jsx:60 | deleting a key the object lacks changes nothing |
| AccountPage.OrEmpty | my-app-react2/Pages/Account.jsx:37-43 | `field \|\| ''`: a present field is kept and a missing one becomes empty |
| AccountPage.LoadedFormHasEveryField | my-app-react2/Pages/Account.jsx:36-44 | the loaded form has the seven field names in order, each once, each holding the user's field or empty |
| AccountPage.InitialFormIsEmptyUser | my-app-react2/Pages/Account.jsx:14-44 | the initial form is the form of a user with no fields, with the same seven names |
| AccountPage.PassportCompleteIff | my-app-react2/Pages/Account.jsx:74 | the passport counts as complete, and the warning is hidden, exactly when number, country and expiry are all non-empty |
| AccountPage.ClearingPassportFieldShowsWarning | my-app-react2/Pages/Account.jsx:52-74 | emptying any one passport field brings the warning back |
| AccountPage.Change | my-app-react2/Pages/Account.jsx:51-53 | the named input's value is written, every other field kept, a known name adds no key, and the other cells stay |
| AccountPage.AfterLoad | my-app-react2/Pages/Account.jsx:31-49 | loading ends either way; on success the user and the form built from it are stored, on error the old user and form stay |
| AccountPage.SavePayload | my-app-react2/Pages/Account.jsx:59-60 | the payload reads no e-mail and every other field as in the form |
| AccountPage.PayloadOfLoadedForm | my-app-react2/Pages/Account.jsx:36-60 | a loaded form's payload has the six fields other than `email`, in order, each as loaded |
| AccountPage.BeginSave | my-app-react2/Pages/Account.jsx:55-61 | saving begins and the form without `email` is sent |
| AccountPage.EndSave | my-app-react2/Pages/Account.jsx:61-66 | saving ends either way; after a successful update the page reloads as `loadUser` does, after a failed one nothing else changes |
| AccountPage.SaveButtonsDisabledWhileBusy | my-app-react2/Pages/Account.jsx:173 | the save buttons are disabled at first and while saving, and enabled again once a save ends on a loaded page |
| ParcelsPage.FilteredParcelsSpec | my-app-react2/Pages/Parcels.jsx:53-63 | a parcel is listed exactly when the main tab is `parcels`, it passes the status tab and its tracking number, recipient or destination contains the search ignoring case; the order is kept |
| ParcelsPage.OtherTabListsNothing | my-app-react2/Pages/Parcels.jsx:55 | off the `parcels` main tab the list is empty |
| ParcelsPage.StatusTabsSplitAll | my-app-react2/Pages/Parcels.jsx:26-57 | on the parcels tab no parcel is listed under two of the status tabs `processing`, `in_transit`, `delivered`, and every parcel a status tab lists is listed under `all` too |
| ParcelsPage.StatusTabKeepsThatStatus | my-app-react2/Pages/Parcels.jsx:26-57 | under a status tab other than `all`, every listed parcel has that status |
| ParcelsPage.NoFilterListsAll | my-app-react2/Pages/Parcels.jsx:31-63 | with the initial tab, status `all` and an empty search, every parcel is listed in place |
| ParcelsPage.MissingFieldsNeverMatch | my-app-react2/Pages/Parcels.jsx:60-61 | a parcel with no recipient and no destination matches only through its tracking number |
| ParcelsPage.AfterLoad | my-app-react2/Pages/Parcels.jsx:40-51 | the list becomes the loaded parcels, or empty on error |
| ParcelsPage.FailedLoadListsNothing | my-app-react2/Pages/Parcels.jsx:46-63 | after a failed load nothing is listed under any tab or search |
| StorePage.FilteredStoresSpec | my-app-react2/Pages/Store.jsx:51-54 | a store is listed exactly when its name or description contains the search ignoring case; the order is kept |
| StorePage.FilteredProductsSpec | my-app-react2/Pages/Store.jsx:56-61 | a product is listed exactly when it matches the search and the category is `all` or its own; the order is kept |
| StorePage.NoFilterListsAll | my-app-react2/Pages/Store.jsx:20-61 | the initial empty search and category `all` list every store and product in place |
| StorePage.FeaturedOf | my-app-react2/Pages/Store.jsx:206-207 | the featured tab gets the first six filtered stores and the first twelve filtered products, or all when fewer |
| StorePage.FeaturedAreListed | my-app-react2/Pages/Store.jsx:51-61 | every featured store or product is loaded and passes the filters |
| StorePage.Mounted | my-app-react2/Pages/Store.jsx:18-34 | after mount: empty lists, empty search, category `all`, loading, and the order modal open exactly when `action` is `order` |
| StorePage.AfterLoad | my-app-react2/Pages/Store.jsx:36-49 | loading ends either way; on success both lists are replaced, on error both stay as they were |
| StorePage.FailedFirstLoadListsNothing | my-app-react2/Pages/Store.jsx:18-48 | when the first load fails, both filtered lists are empty |
| TariffPlans.Quote | my-app-react2/Components/parcels/TariffPlans.jsx:34-36 | a parcel of one half-kilo costs the first-half-kilo price |
| TariffPlans.QuoteIncreasing | my-app-react2/Components/parcels/TariffPlans.jsx:34-42 | with a positive step, a heavier parcel always costs strictly more |
| TariffPlans.RatesGiveIncreasingPrices | my-app-react2/Components/parcels/TariffPlans.jsx:34-42 | a table whose quotes follow its two rate rows lists strictly increasing prices |
| TariffPlans.StandardFollowsRates | my-app-react2/Components/parcels/TariffPlans.jsx:34-42 | Standard: 8 for the first half-kilo and 4 for each further one, which gives every quoted price, in increasing order |
| TariffPlans.ExpressFollowsRates | my-app-react2/Components/parcels/TariffPlans.jsx:60-68 | Express: 12 and 6, which gives every quoted price, in increasing order |
| TariffPlans.PremiumFollowsRates | my-app-react2/Components/parcels/TariffPlans.jsx:88-96 | Premium: 18 and 9, which gives every quoted price, in increasing order |
| TariffPlans.HeadlineIsFirstHalfKilo | my-app-react2/Components/parcels/TariffPlans.jsx:18-98 | the price shown per kg is each plan's first-half-kilo price, which is below its listed 1 kg price |
| TariffPlans.PlanKeysDistinct | my-app-react2/Components/parcels/TariffPlans.jsx:18-98 | the three plan keys are distinct |
| TariffPlans.OnlyExpressIsPopular | my-app-react2/Components/parcels/TariffPlans.jsx:170 | exactly one plan, Express, carries the popular badge |
| TariffPlans.StandardSelectedAtFirst | my-app-react2/Components/parcels/TariffPlans.jsx:141 | at first, Standard and only Standard is marked selected |
| TariffPlans.Click | my-app-react2/Components/parcels/TariffPlans.jsx:239 | after a click the clicked plan is the selected one |
| TariffPlans.ClickSelectsOnlyThatPlan | my-app-react2/Components/parcels/TariffPlans.jsx:235-241 | after clicking any plan, that plan and no other is marked selected, whatever was selected before |
| Text.Lower | my-app-react2/Pages/Parcels.jsx:59-61 | `toLowerCase` keeps the length and lowers each character |
| Text.IncludesEmpty | my-app-react2/Pages/Parcels.jsx:59 | every string includes the empty string |
| Text.EmptyQueryMatches | my-app-react2/Pages/Store.jsx:52 | an empty search matches every name |
| Text.Split | my-app-react2/Components/i18n/languageProvider.jsx:177 | `split` returns at least one piece |
| Text.SplitPiecesHaveNoSeparator | my-app-react2/Components/i18n/languageProvider.jsx:177 | no piece contains the separator |
| Text.JoinSplit | my-app-react2/Components/i18n/languageProvider.jsx:177 | joining the pieces with the separator gives back the string |
| Text.SplitJoin | my-app-react2/Components/billing/AddCardModal.jsx:31 | splitting a join of separator-free pieces gives back the pieces |
| Text.Decimal | my-app-react2/Components/billing/AddCardModal.jsx:68 | `toString` of a natural number is a non-empty string of digits |
| Text.DecimalValue | my-app-react2/Components/billing/AddCardModal.jsx:68 | the digits read back as the number |

## Left out

- Network and storage are not modelled. Every entity call (`User`, `Parcel`, `Order`, `Payment`, `OnlineStore`, `Product`, `Address`) and the content-generation and scraping services enter only as the outcome of an event. `localStorage` and `navigator.language` are parameters.
- Timers are not modelled: the one-second `setTimeout` in the add-card submit (split into begin and complete), the close timer of the older React modal, and the `switchMap` cancellation in the smart-status modal. The two smart-status modal components are left out too.
- Floating point is not modelled. Amounts are exact reals, and `toFixed` and currency formatting are display only.
- `Date.now()` and `new Date()` are not modelled. They become parameters: item ids come from a counter, and the current year is an input.
- Markup, routing, animations, alerts and console logging are not modelled. Browser `required`-field validation is not modelled either, except the Angular `Validators.required`, which `onSubmit` checks.
- `ngOnDestroy` unsubscribing is not modelled. Nothing in the model runs after destruction.
- The `onSuccess` and `onClose` callbacks that parents pass to the modals are not modelled beyond the state the modal itself changes.
- The static page's DOM scripting (`script.js`) is not modelled. Its total repeats the line-item rule modelled here.
- The Angular create-parcel and add-funds modal components are not modelled. They only forward to the form library and the modal service.
- The add-funds balance update is not modelled, because it interleaves two remote calls.
- The address, billing and layout pages are not modelled. They are load-and-save plumbing.
- Text.Lower: lower-cases ASCII letters only. JavaScript `toLowerCase` also folds other alphabets, which the filters would then match.
- AddCardModal.Chunks: a character is one Dafny `char`. JavaScript's regular expression counts UTF-16 code units, which differ only for characters outside the basic plane.
- Language.T: treats a string value as having no properties. JavaScript's `?.[k]` on a string reads its characters and `length`, so with English `{a: "Dash"}` the key `a.0` gives `"D"` in JavaScript but the key itself here.
- Language.Selected: accepts only `en`, `ru` and `uz`. The code's test `translations[x]` is also truthy for names inherited from the object prototype, such as `constructor`, which the model does not select.
- Language.LanguageProvider.Mount: the same restriction as `Language.Selected`: a saved or browser language named after a prototype property is not modelled.
- FetchOrderModal.ItemsAfterResponse: a response is either an object or a failure. A response whose text is `null` parses to `null`, and the updater then throws on `productData.productName` outside the `try`. The model has no input for that case.
- FormInputs.Truncate: models `parseInt` of a number only as written in plain decimal notation. JavaScript first turns the number into a string, so a number printed in exponent notation parses differently (`parseInt(5e-7)` is 5, `parseInt(1e21)` is 1). The only number the modals pass to `parseInt` is the literal quantity 1 of a blank item.
- Language.FirstIndex: looks up only the table's own entries. A segment such as `constructor` that JavaScript finds on the object prototype is not modelled.
- Language.LanguageProvider.ChangeLanguage: does not check that the language has a table, exactly as the code does not. `t` then falls back to English.
- TariffPlans.HeadlineIsFirstHalfKilo: the value shown "per kg" is the price of the first half-kilo. This is stated as the tables give it and is not treated as a defect.
