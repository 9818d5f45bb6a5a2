# GymMaster health metrics and order merge, modelled in Dafny

This project models the two pieces of real logic in the GymMaster nutrition and
shop backend:

- **User health metrics** (`app/core/models.py`). A user's BMI is derived from
  height (cm) and weight (kg). It is absent when either is missing or zero.
  A chain of threshold tests turns it into one of four `bmi_interpretation`
  labels. `User.save` recomputes that label before every write, so after every full
  save the stored label matches the stored height and weight. `UserManager.create_user` refuses a missing or
  empty email.
- **Orders and order items** (`app/shop/models.py`, `app/shop/views.py`).
  Orders have a status (`Pending`/`Done`), a total quantity and a total price.
  Order items belong to one order, may point at a product, and carry a quantity.
  `OrderViewSet.update` runs a loop over the request's `order_items` records.
  Each pass looks up the order's first item again; under the `-id` ordering
  that is the newest one. The pass then adds the record's quantity to that
  item, or creates a product-less item when the order has none.

Files:

- `wrappers.dfy`: `Option` and `Result`.
- `core_models.dfy` (module `CoreModels`): the BMI function, the classification
  chain, the prepared row that `save` persists, and the `User` class with
  `SetBmiInterpretation` and `Save`. Also `create_user`.
- `shop_models.dfy` (module `ShopModels`): the `Order` and `OrderItem` rows,
  their defaults, the status choices, and the table invariant (keys strictly
  increase in creation order). The `-id` query is modelled as
  `ItemsOfOrder`/`FirstIndex`. Deletion is modelled by three functions:
  `CascadeOrder`/`RemoveOrder` (CASCADE), `ClearProduct` (SET_NULL) and
  `DetachUser` (SET_NULL).
- `shop_views.dfy` (module `ShopViews`): `MergeAll`, the specification of the
  update loop, with its closed forms. Also the `ShopDatabase` class, whose
  `Update`/`MergeRecords` methods run the loop in place and are proved against
  `MergeAll`.

The BMI thresholds follow the code. Values in [24.9, 25) fail the tests
`18.5 <= b < 24.9` and `25 <= b < 29.9`, so they fall to the final `else` and
are labelled Obesity. Read as bands, the labels suggest that 24.9 would start
Overweight, but the code gives Obesity there. The model follows the code, and
`ClassifyNotMonotone` proves the resulting non-monotone step.

The item table is a sequence of rows in creation order. Auto-increment keys
therefore increase along it (`IdsAscending`), and the `['-id']` ordering is
read from the end of the sequence. Heights, weights and quantities are `real`.

## Model

| member | source | states |
|---|---|---|
| `CoreModels.LabelValue` | app/core/models.py:56-74 | each choice's stored text is non-empty and fits the 15-character column |
| `CoreModels.ParseLabel` | app/core/models.py:62-74 | only the four choice texts are accepted back, each as its own label |
| `CoreModels.LabelRoundTrip` | app/core/models.py:62-67 | writing a label and reading it back returns the same label |
| `CoreModels.Truthy` | app/core/models.py:82 | a nullable float field is false exactly when it is `None` or zero |
| `CoreModels.BmiOf` | app/core/models.py:80-85 | BMI is present exactly when height and weight are both non-null and non-zero, and then BMI·height² = 10000·weight (weight over height in metres squared) |
| `CoreModels.BmiUnique` | app/core/models.py:82-84 | any value satisfying the BMI equation for non-zero inputs is the value returned |
| `CoreModels.Classify` | app/core/models.py:91-102 | no label iff no BMI; Underweight iff b < 18.5; Normal weight iff 18.5 ≤ b < 24.9; Overweight iff 25 ≤ b < 29.9; Obesity iff b ≥ 29.9 or 24.9 ≤ b < 25 |
| `CoreModels.ClassifyNotMonotone` | app/core/models.py:97-102 | some smaller BMI gets a more severe label than a larger one (24.95 is Obesity, 25 is Overweight) |
| `CoreModels.ClassifyMonotoneOutsideGap` | app/core/models.py:95-102 | outside [24.9, 25) the label severity never decreases as BMI grows |
| `CoreModels.LabelFor` | app/core/models.py:91-94 | a user has no label exactly when height or weight is missing or zero |
| `CoreModels.Prepared` | app/core/models.py:87-89 | the row `save` persists has a label consistent with its height and weight and keeps every other field |
| `CoreModels.PreparedIdempotent` | app/core/models.py:87-89 | recomputing the label of an already prepared row changes nothing |
| `CoreModels.PreparedFixedPoints` | app/core/models.py:87-89 | a row is unchanged by preparation iff its label is already current |
| `CoreModels.PreparedLabelDependsOnMeasurements` | app/core/models.py:87-102 | two rows with the same height and weight get the same stored label, whatever their old labels |
| `CoreModels.CreateUserRow` | app/core/models.py:16-24 | creation fails iff the email is missing or empty; otherwise the row has that email, those measurements and a current label |
| `CoreModels.User.constructor` | app/core/models.py:69-74 | an unsaved user has a null label and no stored row |
| `CoreModels.User.Bmi` | app/core/models.py:80-85 | the instance's `bmi` is present exactly when its height and weight are both truthy, and then satisfies BMI·height² = 10000·weight |
| `CoreModels.User.SetBmiInterpretation` | app/core/models.py:91-102 | the label becomes the classification of the current BMI and nothing else changes |
| `CoreModels.User.Save` | app/core/models.py:87-89 | the stored row is the prepared form of the attributes, equals the instance, and is consistent |
| `CoreModels.SaveTwice` | app/core/models.py:87-89 | saving twice stores the same row as saving once, and leaves the instance's attributes equal to that prepared row (only the label and the stored row change) |
| `CoreModels.CreateUser` | app/core/models.py:16-24 | a missing or empty email yields the error and no user; otherwise a fresh user whose attributes (email, height, weight, label) and stored row are both `CreateUserRow`'s |
| `ShopModels.StatusValue` | app/shop/models.py:22-27 | each status text is non-empty and fits the 9-character column |
| `ShopModels.ParseStatus` | app/shop/models.py:22-27 | only 'Pending' and 'Done' are accepted back, each as its own status |
| `ShopModels.StatusRoundTrip` | app/shop/models.py:22-27 | writing a status and reading it back returns the same status |
| `ShopModels.NewOrder` | app/shop/models.py:25-33 | a new order is Pending, has total quantity 0 and total price 0.00 |
| `ShopModels.NewOrderItem` | app/shop/models.py:50-59 | a new item has quantity 1.0 unless one is given, and the given order and product |
| `ShopModels.OrderKeysUnique` | app/shop/models.py:52 | in an order table with ascending keys no two rows share a key, so an item's `order` names exactly one order |
| `ShopModels.ItemsOfOrder` | app/shop/models.py:60-64 | the query lists exactly the items of the order, each drawn from the table |
| `ShopModels.ItemsOfOrderDescending` | app/shop/models.py:64 | with ascending keys the query is in strictly descending key order |
| `ShopModels.FirstIndex` | app/shop/views.py:30 | `.first()` is absent iff the order has no item; otherwise it is an item of the order with no later item of the order after it |
| `ShopModels.FirstIndexIsQueryHead` | app/shop/models.py:64 | `.first()` is absent iff the `-id` query is empty, and otherwise is its head |
| `ShopModels.FirstIndexIsNewest` | app/shop/models.py:64 | if the order has any item, `.first()` exists and has the highest key of the order's items |
| `ShopModels.FirstIndexIgnoresPayload` | app/shop/views.py:30-35 | changing quantities or products of rows does not move `.first()` |
| `ShopModels.CascadeOrder` | app/shop/models.py:52 | after deleting an order, exactly the items of other orders remain |
| `ShopModels.RemoveOrder` | app/shop/models.py:52 | the deleted order's key and no other leaves the order table |
| `ShopModels.RemoveOrderKeepsKeys` | app/shop/models.py:52 | deleting an order keeps the remaining order keys ascending and below the next key |
| `ShopModels.CascadeOrderKeepsOrder` | app/shop/models.py:52 | the items left by the cascade keep ascending keys |
| `ShopModels.DeleteOrderKeepsTableValid` | app/shop/models.py:52 | after deleting an order every remaining item still belongs to an existing order |
| `ShopModels.ClearProduct` | app/shop/models.py:54 | deleting a product keeps every item, with the same key, order and quantity, and clears exactly the references to that product |
| `ShopModels.DeleteProductKeepsTable` | app/shop/models.py:54 | after deleting a product the table stays valid, no item refers to it, and for every order the first item stays where it was |
| `ShopModels.DetachUser` | app/shop/models.py:34-38 | deleting a user keeps every order and clears exactly the references to that user |
| `ShopModels.DeleteUserKeepsOrders` | app/shop/models.py:34-38 | deleting a user leaves the set of order keys unchanged |
| `ShopViews.Quantities` | app/shop/views.py:28-34 | the quantities read from the records, one per record, in order |
| `ShopViews.Payload` | app/shop/views.py:25-27 | an absent `order_items` contributes no quantities; a present one contributes its records' quantities |
| `ShopViews.MergeOne` | app/shop/views.py:30-38 | one record: the order's newest item gains the quantity and no other row or field changes, or, if the order has no item, the old rows are kept and one product-less row with the next key and that quantity is appended; afterwards the order has an item |
| `ShopViews.MergeAll` | app/shop/views.py:28-38 | an empty batch changes nothing; after a non-empty one the order has an item; a key is consumed, and one row created, exactly when the order started without items and the batch is non-empty |
| `ShopViews.MergeIntoExisting` | app/shop/views.py:28-35 | if the order has items, the batch adds its sum to the newest item and no other row or key changes |
| `ShopViews.MergeIntoNew` | app/shop/views.py:28-38 | if the order has no item, a non-empty batch adds exactly one product-less row with the next key and the batch's sum |
| `ShopViews.CreatesAtMostOne` | app/shop/views.py:28-38 | at most one row is created, only when the order had none, and every other row is unchanged |
| `ShopViews.MergeAllKeepsTableValid` | app/shop/views.py:28-38 | the loop keeps the item table's invariant for an existing order |
| `ShopViews.ExampleNewItem` | app/shop/views.py:36-38 | an order with no items and the batch [2] ends with one item of quantity 2 |
| `ShopViews.ExampleMergeTwice` | app/shop/views.py:30-35 | an item at quantity 3 and the batch [2, 1] ends at 6, product untouched |
| `ShopViews.ShopDatabase.constructor` | app/shop/models.py:50-64 | an empty database satisfies the invariant of both tables |
| `ShopViews.ShopDatabase.CreateOrder` | app/shop/models.py:20-33 | appends one order with the column defaults and the next key, which no existing order has, keeping the invariant (order keys ascending and below the next key) |
| `ShopViews.ShopDatabase.DeleteOrder` | app/shop/models.py:52 | removes the order's row and, by CASCADE, its items, keeping the table invariant |
| `ShopViews.ShopDatabase.DeleteProduct` | app/shop/models.py:54 | clears the items' references to the product, by SET_NULL, keeping the table invariant |
| `ShopViews.ShopDatabase.CreateItem` | app/shop/views.py:38 | appends one row with the next key, the order, no product and the quantity |
| `ShopViews.ShopDatabase.AddQuantity` | app/shop/views.py:34-35 | only the quantity of the chosen row grows, by the record's quantity |
| `ShopViews.ShopDatabase.MergeRecords` | app/shop/views.py:28-38 | the in-place loop leaves the table equal to `MergeAll` of the records' quantities and keeps it valid |
| `ShopViews.ShopDatabase.Update` | app/shop/views.py:21-38 | an unknown order changes nothing; an empty payload changes nothing; otherwise the newest item gains the batch's sum, or one new item holds it |

## Left out

- Caloric needs, gender and activity level: the User fields and any
  computation for them are not in `app/core/models.py`, so they are not modelled.
- Floating point: BMI and quantities are exact reals. IEEE rounding is not
  modelled, and neither is the Decimal/float mixing in the quantity `+=`.
  Nor are the float exceptions of `height_in_meters ** 2`: an `OverflowError`
  for |height| above about 1.3e156, and a `ZeroDivisionError` when the square
  underflows to 0.0 for |height| below about 1.6e-160. In both cases `save`
  raises and nothing is stored; the model always gives a BMI.
- CoreModels.User.Save: the source forwards `*args, **kwargs` (`using`,
  `update_fields`, ...) to the framework's save; the model takes none. A save
  whose `update_fields` leaves out `bmi_interpretation` recomputes the label in
  memory without writing it, which the model does not capture. Every call shown
  passes only `using` or nothing.
- ShopViews.ShopDatabase.AddQuantity, ShopViews.ShopDatabase.CreateItem and
  ShopViews.MergeAll: the `quantity` column is `DecimalField(max_digits=5,
  decimal_places=2)`. Writing a row rounds the quantity to 0.01, and a value
  whose magnitude reaches 1000 after that rounding (1000 or more, or -1000 or
  less) raises `decimal.InvalidOperation`. The model keeps the exact real with
  neither rounding nor that error. So it does not capture a batch that stops
  at the record pushing an item's magnitude to 1000, with earlier records
  already written.
- Other User fields (name, age, phone, body composition, staff flags): `save`
  stores them unchanged and nothing in the core reads them.
- CoreModels.CreateUser: `normalize_email` and `set_password` are library calls;
  the email is stored as given and the password is not modelled.
- `create_superuser`: it only sets two permission flags on the result of
  `create_user` and saves again.
- Email uniqueness: the database enforces it, not the code modelled here.
- ShopViews.ShopDatabase.Update: the delegation to the generic update
  (`super().update`) and its changes to the order's own fields are not
  modelled, so the order table is left as it was.
- `get_object`'s 404 is modelled as the `NotFound` outcome. Permission checks are not modelled.
- The `__str__` methods: rendering numbers and decimals as text is not
  modelled. `OrderItem.__str__` would fail for the product-less items that
  `update` creates.
- Product name validation and the `['name']` ordering of products: no core
  operation depends on them.
- Concurrency: two simultaneous updates can lose an increment. The model runs
  the loop sequentially. A failure partway through a batch is not modelled.
