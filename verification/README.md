# Storefront catalog and order store, in Dafny

This project models the data layer of a small e-commerce back end: collections,
products, customers, orders, order items, carts, cart items and addresses
(`store/models.py`). It also models the computed columns of the admin list
pages (`store/admin.py`).

The store is an immutable value with one map per table, from integer primary
key to record. `Storefront.Create`, `Storefront.Update` and the eight
`Storefront.Delete…` functions each return either the complete new store or a
typed error:

- `ValidationError(fields)`: the set of every field that breaks a declared
  constraint, a missing reference target included.
- `UniquenessError(Email)`: another customer already has the email.
- `ReferentialIntegrityError(blockers)`: the keys of exactly the rows whose
  PROTECT reference blocks the delete.
- `NotFoundError`, `DuplicateKeyError`.

A refused operation yields no store, so nothing is half-written. `Storefront.Step`
and `Storefront.Run` make this a state machine in which a refused operation
leaves the store as it was.

Decimal prices are integer cents. `Product.unit_price` must lie in
100 .. 999999: the minimum is 1.00 and `max_digits=6, decimal_places=2` allows
at most 9999.99. `OrderItem.unit_price` has no minimum, so it lies in
-999999 .. 999999.

Delete follows each relation's `on_delete` policy:

- PROTECT: Product.collection, Order.customer, OrderItem.order and
  OrderItem.product.
- CASCADE: CartItem.cart, CartItem.product and Address.customer.
- SET_NULL: Collection.featured_product.

The invariant `Storefront.Valid` has three parts: no reference dangles, every
row meets its field constraints, and customer emails are pairwise distinct. It
holds of the empty store and is kept by every step.

Timestamps are opaque integers that the caller passes as `now`:

- `last_update` and `Cart.created_at` are set on every save.
- `placed_at` is set when an order is created and kept on later saves.

Primary keys are chosen by the database and passed in as `id`. Creating a row
under a key that is already in use is refused.

Two of the declared field types are looser than their names suggest:

- `OrderItem.quantity` and `CartItem.quantity` are `PositiveSmallIntegerField`s.
  These admit 0, so the model requires `quantity >= 0`.
- `OrderItem.unit_price` has no minimum validator, so a negative captured
  price is accepted.

`store/admin.py` defines no aggregate column (no product or order count) and
no bulk action, so the model has none.

## Model

| member | source | states |
|---|---|---|
| Models.ProductErrors | store/models.py:23-33 | a product's `unit_price` field fails exactly when the price is outside 1.00 .. 9999.99, `inventory` exactly when it is negative, and `title` and `slug` exactly when they exceed 255 characters; no other field is reported |
| Models.CollectionErrors | store/models.py:13-17 | a collection's only static error is `title`, reported exactly when the title exceeds `max_length=255` |
| Models.CustomerErrors | store/models.py:39-52 | each of `first_name`, `last_name` and `phone` is reported exactly when it exceeds 255 characters, and no other field is |
| Models.OrderItemErrors | store/models.py:71-75 | an order item's `quantity` field fails exactly when the quantity is negative, and its `unit_price` field fails exactly when the captured price does not fit six digits with two decimals; no other field is ever reported |
| Models.CartItemErrors | store/models.py:82-85 | a cart item's `quantity` field fails exactly when the quantity is negative, and no other field is ever reported |
| Models.AddressErrors | store/models.py:88-93 | `street` and `city` are each reported exactly when they exceed 255 characters, and no other field is |
| Storefront.ReferenceErrors | store/models.py:15-93 | each reference field is reported exactly when its target row is missing: `featured_product` (when set), `Product.collection`, `Order.customer`, `OrderItem.order`/`product`, `CartItem.cart`/`product`, and the customer an address is keyed by; nothing else is reported |
| Storefront.Stamp | store/models.py:31-79 | saving keeps the row's kind and its other fields; `Product.last_update` and `Cart.created_at` become the save time; `Order.placed_at` keeps the stored order's value, or becomes the save time when the order is new |
| Storefront.Create | store/models.py:13-93 | an insert succeeds exactly when the key is free, no field fails (references included) and, for a customer, the email is unused. A taken key gives DuplicateKeyError, failing fields give ValidationError naming all of them, and a taken email gives UniquenessError. On success the new row is stored under its key, with its timestamps set, and every other row of every table is unchanged |
| Storefront.Update | store/models.py:13-93 | an update succeeds exactly when the key exists, no field fails and the email is not another customer's. A missing key gives NotFoundError. On success only that row changes, and an order keeps its stored `placed_at` |
| Storefront.DeleteCollection | store/models.py:32 | deleting a collection succeeds exactly when no product is in it; otherwise the error lists exactly the products in it. On success only that collection is gone |
| Storefront.DeleteProduct | store/models.py:15-85 | deleting a product succeeds exactly when no order item refers to it; otherwise the error lists exactly those order items. On success the product and exactly its cart items are gone, every collection featuring it has `featured_product` cleared, and nothing else changes |
| Storefront.DeleteCustomer | store/models.py:68-93 | deleting a customer succeeds exactly when no order refers to it; otherwise the error lists exactly those orders. On success the customer and the address stored under its key are gone, and nothing else changes |
| Storefront.DeleteOrder | store/models.py:58-72 | deleting an order succeeds exactly when no order item refers to it; otherwise the error lists exactly those items. On success nothing else changes |
| Storefront.DeleteOrderItem | store/models.py:71-75 | an existing order item can always be deleted, and only it goes |
| Storefront.DeleteCart | store/models.py:78-85 | deleting an existing cart removes it and exactly the cart items that refer to it |
| Storefront.DeleteCartItem | store/models.py:82-85 | an existing cart item can always be deleted, and only it goes |
| Storefront.DeleteAddress | store/models.py:88-93 | an existing address can be deleted without touching its customer |
| StoreProofs.PutKeepsValid | store/models.py:13-93 | storing a row that passes validation, new or replacing, keeps every reference resolved, every field within its constraints and every email unique |
| StoreProofs.CreateKeepsValid | store/models.py:13-93 | a successful create keeps the store valid |
| StoreProofs.UpdateKeepsValid | store/models.py:13-93 | a successful update keeps the store valid |
| StoreProofs.DeleteKeepsValid | store/models.py:15-93 | a successful delete of any kind, with its cascades and nulled references, keeps the store valid |
| StoreProofs.DeleteProductKeepsValid | store/models.py:15-85 | after deleting a product no cart item, order item or featured-product reference refers to it |
| StoreProofs.DeleteCustomerKeepsValid | store/models.py:68-93 | after deleting a customer no order or address refers to it |
| StoreProofs.DeleteCartKeepsValid | store/models.py:83 | after deleting a cart no cart item refers to it |
| StoreProofs.StepKeepsValid | store/models.py:13-93 | any operation, whether it succeeds or is refused, leaves a valid store valid |
| StoreProofs.RunKeepsValid | store/models.py:13-93 | any sequence of operations from a valid store ends in a valid store: no dangling reference ever appears |
| StoreProofs.ReachableCountsAndPrices | store/models.py:27-85 | in every store reachable from the empty one, inventories and quantities are non-negative and product prices lie in 1.00 .. 9999.99 |
| StoreProofs.ProductPriceBounds | store/models.py:27-29 | a product is created or updated only with a price in 1.00 .. 9999.99; an out-of-range price on a free key (create) or an existing key (update) is refused with `unit_price` among the failing fields |
| StoreProofs.DuplicateEmailRefused | store/models.py:47 | creating a customer whose email another customer has is refused, with UniquenessError when nothing else fails, and the customer table is unchanged |
| StoreProofs.PriceSnapshot | store/models.py:75 | updating a product, its price included, leaves every order item and its captured price unchanged |
| StoreProofs.DeleteCartLeavesNoOrphans | store/models.py:83 | after a cart is deleted every remaining cart item points at a cart that exists, and none points at the deleted one |
| StoreProofs.DeleteCustomerTakesAddress | store/models.py:91-93 | a customer with no orders can be deleted; its address goes with it and every other address stays |
| StoreProofs.SecondAddressRefused | store/models.py:91-93 | a customer that already has an address cannot be given a second one: the create is refused with DuplicateKeyError and the store is unchanged |
| StoreProofs.FictionScenario | store/models.py:32 | a collection holding a product cannot be deleted, and the error names that product; after the product is deleted, the collection can be |
| NameOrder.NameLeTotal | store/admin.py:10 | any two customers are comparable under the (first name, last name) order |
| NameOrder.NameLeTransitive | store/admin.py:10 | the (first name, last name) order is transitive |
| NameOrder.NameLeTies | store/admin.py:10 | two customers the order ranks each before the other share both first and last name |
| NameOrder.InsertByName | store/admin.py:10 | inserting a customer into a list sorted by (first name, last name) gives a sorted list with the same rows plus the new one |
| NameOrder.SortByName | store/admin.py:10 | the customer list is a permutation of its rows sorted by first name, then last name |
| Models.CollectionStr | store/models.py:19-20 | the string form of a collection is its title |
| Models.CustomerStr | store/models.py:54-55 | the string form of a customer is the first name, one space, then the last name: its length is the two lengths plus one, and splitting at the space gives back both names |
| Admin.InventoryStatus | store/admin.py:27-30 | the status is "HIGH" exactly when inventory exceeds 10, and "LOW" exactly when it does not |
| Admin.InventoryStatusBoundary | store/admin.py:28 | inventory 10 shows "LOW" and inventory 11 shows "HIGH" |
| Admin.InventoryStatusMonotone | store/admin.py:26-30 | sorting by inventory also sorts by status: more stock never shows "LOW" where less stock shows "HIGH" |
| Admin.CollectionTitle | store/admin.py:23-24 | the collection column is the string form of the product's collection, which is its title |
| Admin.CollectionTitleDefined | store/admin.py:23-24 | in a valid store every product's collection exists, so the column is always defined |
| Admin.CustomerFullName | store/admin.py:41-45 | the customer column of an order equals the string form of the order's customer |
| Admin.CustomerFullNameParts | store/admin.py:41-45 | the customer column is the first name, one space, then the last name |
| Admin.CustomerFullNameDefined | store/admin.py:41-45 | in a valid store every order's customer exists, so the column is always defined |

## Left out

- `Promotion` (`store/models.py:8-10`) and `Product.promotions`: the discount is a floating-point number. The link-table cleanup on delete is framework behaviour that the source does not declare.
- Validators that the framework supplies and the source does not spell out: email format, slug characters, the blank checks on text fields, the 254-character default length of `EmailField`, and rejection of more than two decimal places. That last one cannot arise, because prices are whole cents.
- Models.OrderItemErrors, Models.CartItemErrors and Models.ProductErrors: only non-negativity is required of `quantity` and `inventory`. The upper limits of `PositiveSmallIntegerField` and `PositiveIntegerField` (32767 and 2147483647) depend on the database backend, so they are not modelled.
- Storefront.Create and Storefront.Update: an email collision is reported only when no other field fails. The framework's full validation reports both together.
- Storefront.Update: a row's key never changes. Reassigning `Address.customer`, which is the address's own key, is not modelled.
- Storefront.Create: a collection with no featured product is accepted. `Collection.featured_product` is declared `null=True` without `blank=True` (store/models.py:15-17), so the framework's full validation and the admin form would refuse it with "This field cannot be blank". Followed literally, the first collection could never be created, and so no product could be either. The model follows the nullable column instead. The same holds for `Customer.birth_date` (store/models.py:49), which is also `null=True` without `blank=True`.
- Storefront.Create: a key already in use is refused with `DuplicateKeyError` before any field is validated. Only an address can reach this case from the admin, because its key is its customer (store/models.py:91-93). Full validation would instead report a uniqueness error on `customer` together with any failing `street` or `city`.
- Storefront.Update: for the same reason, a collection whose featured product is absent, including one that SET_NULL has cleared, can be saved again. Full validation would refuse it.
- The model checks the field constraints that the source declares, and the existence of reference targets, on every create and update. Writes that skip validation are not modelled.
- The defaults `membership = Bronze` and `payment_status = Pending` are filled in by the form before a row reaches the store. The model takes every field value as given.
- `Product.__str__` (store/models.py:35-36) returns the title. No modelled column uses it.
- Clock readings and key allocation come from outside as parameters (`now`, `id`).
- Admin plumbing: `list_display`, `list_editable`, `list_per_page`, `list_select_related`, registration, and the sort key `customer__first_name` of the customer column. None of these computes a value.
- `store_custom/admin.py`: it only re-registers the product admin with a tagging inline. `TaggedItem` lives in `tags.models`, which is not part of this model.
- NameOrder.SortByName and Storefront.EmailTaken: names are compared, and emails checked for uniqueness, by exact character codes, not by the database collation, which is case-insensitive on some backends. No order among rows with equal names is promised. The admin's own tie-breaking column is not modelled.
