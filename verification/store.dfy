/** The catalog and order store as an immutable value: one table per model of
    store/models.py, each a map from primary key to record. Every operation is a
    pure function that either returns the whole new store or refuses, so a
    refused operation writes nothing. */
module Storefront {
  import opened Results
  import opened Models

  datatype Store = Store(
    collections: map<Id, Collection>,
    products: map<Id, Product>,
    customers: map<Id, Customer>,
    orders: map<Id, Order>,
    orderItems: map<Id, OrderItem>,
    carts: map<Id, Cart>,
    cartItems: map<Id, CartItem>,
    /** Keyed by the customer the address belongs to. */
    addresses: map<Id, Address>)

  const Empty: Store := Store(map[], map[], map[], map[], map[], map[], map[], map[])

  /** Why an operation was refused. */
  datatype Error =
    | ValidationError(fields: set<Field>)           // declared field constraints, reference targets
    | UniquenessError(field: Field)                 // a unique column already holds the value
    | ReferentialIntegrityError(blockers: set<Id>)  // a PROTECT reference blocks the delete
    | NotFoundError                                 // no row under the key
    | DuplicateKeyError                             // the key is already taken

  datatype Kind =
    | CollectionKind | ProductKind | CustomerKind | OrderKind
    | OrderItemKind | CartKind | CartItemKind | AddressKind

  /** One record of any table. */
  datatype Row =
    | CollectionRow(collection: Collection)
    | ProductRow(product: Product)
    | CustomerRow(customer: Customer)
    | OrderRow(order: Order)
    | OrderItemRow(orderItem: OrderItem)
    | CartRow(cart: Cart)
    | CartItemRow(cartItem: CartItem)
    | AddressRow(address: Address)

  function KindOf(row: Row): Kind
  {
    match row
    case CollectionRow(_) => CollectionKind
    case ProductRow(_) => ProductKind
    case CustomerRow(_) => CustomerKind
    case OrderRow(_) => OrderKind
    case OrderItemRow(_) => OrderItemKind
    case CartRow(_) => CartKind
    case CartItemRow(_) => CartItemKind
    case AddressRow(_) => AddressKind
  }

  /** The keys in use in one table. */
  function Keys(s: Store, k: Kind): set<Id>
  {
    match k
    case CollectionKind => s.collections.Keys
    case ProductKind => s.products.Keys
    case CustomerKind => s.customers.Keys
    case OrderKind => s.orders.Keys
    case OrderItemKind => s.orderItems.Keys
    case CartKind => s.carts.Keys
    case CartItemKind => s.cartItems.Keys
    case AddressKind => s.addresses.Keys
  }

  /** The row stored under `id` in table `k`, if any. */
  function Get(s: Store, k: Kind, id: Id): (r: Option<Row>)
    ensures r.Some? <==> id in Keys(s, k)
    ensures r.Some? ==> KindOf(r.value) == k
  {
    match k
    case CollectionKind => if id in s.collections then Some(CollectionRow(s.collections[id])) else None
    case ProductKind => if id in s.products then Some(ProductRow(s.products[id])) else None
    case CustomerKind => if id in s.customers then Some(CustomerRow(s.customers[id])) else None
    case OrderKind => if id in s.orders then Some(OrderRow(s.orders[id])) else None
    case OrderItemKind => if id in s.orderItems then Some(OrderItemRow(s.orderItems[id])) else None
    case CartKind => if id in s.carts then Some(CartRow(s.carts[id])) else None
    case CartItemKind => if id in s.cartItems then Some(CartItemRow(s.cartItems[id])) else None
    case AddressKind => if id in s.addresses then Some(AddressRow(s.addresses[id])) else None
  }

  /** Store `row` under `id` in its table, replacing any row already there. */
  function Put(s: Store, id: Id, row: Row): (t: Store)
    ensures Get(t, KindOf(row), id) == Some(row)
    ensures forall k, j :: k != KindOf(row) || j != id ==> Get(t, k, j) == Get(s, k, j)
  {
    match row
    case CollectionRow(c) => s.(collections := s.collections[id := c])
    case ProductRow(p) => s.(products := s.products[id := p])
    case CustomerRow(c) => s.(customers := s.customers[id := c])
    case OrderRow(o) => s.(orders := s.orders[id := o])
    case OrderItemRow(i) => s.(orderItems := s.orderItems[id := i])
    case CartRow(c) => s.(carts := s.carts[id := c])
    case CartItemRow(i) => s.(cartItems := s.cartItems[id := i])
    case AddressRow(a) => s.(addresses := s.addresses[id := a])
  }

  // ---------------------------------------------------------------------------
  // Validation

  /** Fields of `row` that break a constraint needing no other row. */
  function StaticErrors(row: Row): set<Field>
  {
    match row
    case CollectionRow(c) => CollectionErrors(c)
    case ProductRow(p) => ProductErrors(p)
    case CustomerRow(c) => CustomerErrors(c)
    case OrderRow(_) => {}
    case OrderItemRow(i) => OrderItemErrors(i)
    case CartRow(_) => {}
    case CartItemRow(i) => CartItemErrors(i)
    case AddressRow(a) => AddressErrors(a)
  }

  /** Reference fields of `row`, to be stored under `id`, whose target is not in `s`. */
  function ReferenceErrors(s: Store, id: Id, row: Row): (r: set<Field>)
    ensures FeaturedProduct in r <==>
      row.CollectionRow? && row.collection.featuredProduct.Some? &&
      row.collection.featuredProduct.value !in s.products
    ensures CollectionKey in r <==> row.ProductRow? && row.product.collection !in s.collections
    ensures CustomerKey in r <==>
      (row.OrderRow? && row.order.customer !in s.customers) || (row.AddressRow? && id !in s.customers)
    ensures OrderKey in r <==> row.OrderItemRow? && row.orderItem.order !in s.orders
    ensures ProductKey in r <==>
      (row.OrderItemRow? && row.orderItem.product !in s.products) ||
      (row.CartItemRow? && row.cartItem.product !in s.products)
    ensures CartKey in r <==> row.CartItemRow? && row.cartItem.cart !in s.carts
    ensures r <= {FeaturedProduct, CollectionKey, CustomerKey, OrderKey, ProductKey, CartKey}
  {
    match row
    case CollectionRow(c) =>
      if c.featuredProduct.Some? && c.featuredProduct.value !in s.products then {FeaturedProduct} else {}
    case ProductRow(p) => if p.collection in s.collections then {} else {CollectionKey}
    case CustomerRow(_) => {}
    case OrderRow(o) => if o.customer in s.customers then {} else {CustomerKey}
    case OrderItemRow(i) =>
      (if i.order in s.orders then {} else {OrderKey})
      + (if i.product in s.products then {} else {ProductKey})
    case CartRow(_) => {}
    case CartItemRow(i) =>
      (if i.cart in s.carts then {} else {CartKey})
      + (if i.product in s.products then {} else {ProductKey})
    case AddressRow(_) => if id in s.customers then {} else {CustomerKey}
  }

  /** Every field of `row` that fails validation against `s`. */
  function FieldErrors(s: Store, id: Id, row: Row): set<Field>
  {
    StaticErrors(row) + ReferenceErrors(s, id, row)
  }

  /** Some customer other than `id` already has this email. */
  predicate EmailTaken(s: Store, id: Id, email: string)
  {
    exists j :: j in s.customers && j != id && s.customers[j].email == email
  }

  predicate EmailClash(s: Store, id: Id, row: Row)
  {
    row.CustomerRow? && EmailTaken(s, id, row.customer.email)
  }

  /** The row as saved at time `now`: `last_update` and `Cart.created_at` are
      refreshed on every save; `placed_at` is set when the order is added and
      kept on later saves. */
  function Stamp(row: Row, now: Timestamp, stored: Option<Row>): (r: Row)
    ensures KindOf(r) == KindOf(row)
    ensures row.ProductRow? ==>
      r.product.lastUpdate == now && r.product.(lastUpdate := row.product.lastUpdate) == row.product
    ensures row.CartRow? ==> r.cart.createdAt == now
    ensures row.OrderRow? ==>
      r.order.(placedAt := row.order.placedAt) == row.order &&
      r.order.placedAt == (if stored.Some? && stored.value.OrderRow? then stored.value.order.placedAt else now)
    ensures !row.ProductRow? && !row.CartRow? && !row.OrderRow? ==> r == row
  {
    match row
    case ProductRow(p) => ProductRow(p.(lastUpdate := now))
    case OrderRow(o) =>
      var placed := if stored.Some? && stored.value.OrderRow? then stored.value.order.placedAt else now;
      OrderRow(o.(placedAt := placed))
    case CartRow(c) => CartRow(c.(createdAt := now))
    case _ => row
  }

  /** Validate `row` and, if it passes, store it under `id`. */
  function Save(s: Store, id: Id, row: Row, stamped: Row): Result<Store, Error>
  {
    var errors := FieldErrors(s, id, row);
    if errors != {} then Failure(ValidationError(errors))
    else if EmailClash(s, id, row) then Failure(UniquenessError(Email))
    else Success(Put(s, id, stamped))
  }

  // ---------------------------------------------------------------------------
  // Create and update

  /** Insert `row` under the fresh key `id` at time `now`. */
  function Create(s: Store, id: Id, row: Row, now: Timestamp): (r: Result<Store, Error>)
    ensures r.Success? <==>
      id !in Keys(s, KindOf(row)) && FieldErrors(s, id, row) == {} && !EmailClash(s, id, row)
    ensures id in Keys(s, KindOf(row)) ==> r == Failure(DuplicateKeyError)
    ensures id !in Keys(s, KindOf(row)) && FieldErrors(s, id, row) != {} ==>
      r == Failure(ValidationError(FieldErrors(s, id, row)))
    ensures id !in Keys(s, KindOf(row)) && FieldErrors(s, id, row) == {} && EmailClash(s, id, row) ==>
      r == Failure(UniquenessError(Email))
    ensures r.Success? ==> Get(r.value, KindOf(row), id) == Some(Stamp(row, now, None))
    ensures r.Success? ==>
      forall k, j :: k != KindOf(row) || j != id ==> Get(r.value, k, j) == Get(s, k, j)
  {
    if id in Keys(s, KindOf(row)) then Failure(DuplicateKeyError)
    else Save(s, id, row, Stamp(row, now, None))
  }

  /** Replace the row under the existing key `id` with `row`, saved at time `now`. */
  function Update(s: Store, id: Id, row: Row, now: Timestamp): (r: Result<Store, Error>)
    ensures r.Success? <==>
      id in Keys(s, KindOf(row)) && FieldErrors(s, id, row) == {} && !EmailClash(s, id, row)
    ensures id !in Keys(s, KindOf(row)) ==> r == Failure(NotFoundError)
    ensures id in Keys(s, KindOf(row)) && FieldErrors(s, id, row) != {} ==>
      r == Failure(ValidationError(FieldErrors(s, id, row)))
    ensures id in Keys(s, KindOf(row)) && FieldErrors(s, id, row) == {} && EmailClash(s, id, row) ==>
      r == Failure(UniquenessError(Email))
    ensures r.Success? ==>
      Get(r.value, KindOf(row), id) == Some(Stamp(row, now, Get(s, KindOf(row), id)))
    ensures r.Success? ==>
      forall k, j :: k != KindOf(row) || j != id ==> Get(r.value, k, j) == Get(s, k, j)
  {
    if id !in Keys(s, KindOf(row)) then Failure(NotFoundError)
    else Save(s, id, row, Stamp(row, now, Get(s, KindOf(row), id)))
  }

  // ---------------------------------------------------------------------------
  // Who refers to whom

  function ProductsInCollection(s: Store, c: Id): (r: set<Id>)
    ensures forall x :: x in r <==> x in s.products && s.products[x].collection == c
  {
    set p | p in s.products && s.products[p].collection == c
  }

  function OrdersOfCustomer(s: Store, c: Id): (r: set<Id>)
    ensures forall x :: x in r <==> x in s.orders && s.orders[x].customer == c
  {
    set o | o in s.orders && s.orders[o].customer == c
  }

  function OrderItemsOfOrder(s: Store, o: Id): (r: set<Id>)
    ensures forall x :: x in r <==> x in s.orderItems && s.orderItems[x].order == o
  {
    set i | i in s.orderItems && s.orderItems[i].order == o
  }

  function OrderItemsOfProduct(s: Store, p: Id): (r: set<Id>)
    ensures forall x :: x in r <==> x in s.orderItems && s.orderItems[x].product == p
  {
    set i | i in s.orderItems && s.orderItems[i].product == p
  }

  /** A collection with its featured product cleared if it is `p` (SET_NULL). */
  function Unfeature(c: Collection, p: Id): Collection
  {
    if c.featuredProduct == Some(p) then c.(featuredProduct := None) else c
  }

  // ---------------------------------------------------------------------------
  // Delete, one function per model, following each relation's on_delete policy

  /** Products PROTECT their collection. */
  function DeleteCollection(s: Store, id: Id): (r: Result<Store, Error>)
    ensures r.Success? <==>
      id in s.collections && forall p :: p in s.products ==> s.products[p].collection != id
    ensures id !in s.collections ==> r == Failure(NotFoundError)
    ensures r.Failure? && id in s.collections ==>
      r.error.ReferentialIntegrityError? &&
      (forall p :: p in r.error.blockers <==> p in s.products && s.products[p].collection == id)
    ensures r.Success? ==> r.value.collections == s.collections - {id}
    ensures r.Success? ==> r.value.(collections := s.collections) == s
  {
    if id !in s.collections then Failure(NotFoundError)
    else
      var blockers := ProductsInCollection(s, id);
      if blockers != {} then Failure(ReferentialIntegrityError(blockers))
      else Success(s.(collections := s.collections - {id}))
  }

  /** Order items PROTECT their product; cart items CASCADE with it; a collection
      featuring it has the reference SET_NULL. */
  function DeleteProduct(s: Store, id: Id): (r: Result<Store, Error>)
    ensures r.Success? <==>
      id in s.products && forall i :: i in s.orderItems ==> s.orderItems[i].product != id
    ensures id !in s.products ==> r == Failure(NotFoundError)
    ensures r.Failure? && id in s.products ==>
      r.error.ReferentialIntegrityError? &&
      (forall i :: i in r.error.blockers <==> i in s.orderItems && s.orderItems[i].product == id)
    ensures r.Success? ==> r.value.products == s.products - {id}
    ensures r.Success? ==> forall i :: i in r.value.cartItems <==>
      i in s.cartItems && s.cartItems[i].product != id
    ensures r.Success? ==> forall i :: i in r.value.cartItems ==> r.value.cartItems[i] == s.cartItems[i]
    ensures r.Success? ==> r.value.collections.Keys == s.collections.Keys
    ensures r.Success? ==> forall c :: c in s.collections ==>
      r.value.collections[c].title == s.collections[c].title &&
      r.value.collections[c].featuredProduct ==
        (if s.collections[c].featuredProduct == Some(id) then None else s.collections[c].featuredProduct)
    ensures r.Success? ==>
      r.value.(products := s.products, cartItems := s.cartItems, collections := s.collections) == s
  {
    if id !in s.products then Failure(NotFoundError)
    else
      var blockers := OrderItemsOfProduct(s, id);
      if blockers != {} then Failure(ReferentialIntegrityError(blockers))
      else
        Success(s.(
          products := s.products - {id},
          cartItems := map i | i in s.cartItems && s.cartItems[i].product != id :: s.cartItems[i],
          collections := map c | c in s.collections :: Unfeature(s.collections[c], id)))
  }

  /** Orders PROTECT their customer; the customer's address CASCADES with it. */
  function DeleteCustomer(s: Store, id: Id): (r: Result<Store, Error>)
    ensures r.Success? <==>
      id in s.customers && forall o :: o in s.orders ==> s.orders[o].customer != id
    ensures id !in s.customers ==> r == Failure(NotFoundError)
    ensures r.Failure? && id in s.customers ==>
      r.error.ReferentialIntegrityError? &&
      (forall o :: o in r.error.blockers <==> o in s.orders && s.orders[o].customer == id)
    ensures r.Success? ==> r.value.customers == s.customers - {id}
    ensures r.Success? ==> r.value.addresses == s.addresses - {id}
    ensures r.Success? ==> r.value.(customers := s.customers, addresses := s.addresses) == s
  {
    if id !in s.customers then Failure(NotFoundError)
    else
      var blockers := OrdersOfCustomer(s, id);
      if blockers != {} then Failure(ReferentialIntegrityError(blockers))
      else Success(s.(customers := s.customers - {id}, addresses := s.addresses - {id}))
  }

  /** Order items PROTECT their order. */
  function DeleteOrder(s: Store, id: Id): (r: Result<Store, Error>)
    ensures r.Success? <==>
      id in s.orders && forall i :: i in s.orderItems ==> s.orderItems[i].order != id
    ensures id !in s.orders ==> r == Failure(NotFoundError)
    ensures r.Failure? && id in s.orders ==>
      r.error.ReferentialIntegrityError? &&
      (forall i :: i in r.error.blockers <==> i in s.orderItems && s.orderItems[i].order == id)
    ensures r.Success? ==> r.value.orders == s.orders - {id}
    ensures r.Success? ==> r.value.(orders := s.orders) == s
  {
    if id !in s.orders then Failure(NotFoundError)
    else
      var blockers := OrderItemsOfOrder(s, id);
      if blockers != {} then Failure(ReferentialIntegrityError(blockers))
      else Success(s.(orders := s.orders - {id}))
  }

  /** Nothing refers to an order item. */
  function DeleteOrderItem(s: Store, id: Id): (r: Result<Store, Error>)
    ensures r.Success? <==> id in s.orderItems
    ensures r.Failure? ==> r.error == NotFoundError
    ensures r.Success? ==> r.value.orderItems == s.orderItems - {id}
    ensures r.Success? ==> r.value.(orderItems := s.orderItems) == s
  {
    if id !in s.orderItems then Failure(NotFoundError)
    else Success(s.(orderItems := s.orderItems - {id}))
  }

  /** The cart's items CASCADE with it. */
  function DeleteCart(s: Store, id: Id): (r: Result<Store, Error>)
    ensures r.Success? <==> id in s.carts
    ensures r.Failure? ==> r.error == NotFoundError
    ensures r.Success? ==> r.value.carts == s.carts - {id}
    ensures r.Success? ==> forall i :: i in r.value.cartItems <==>
      i in s.cartItems && s.cartItems[i].cart != id
    ensures r.Success? ==> forall i :: i in r.value.cartItems ==> r.value.cartItems[i] == s.cartItems[i]
    ensures r.Success? ==> r.value.(carts := s.carts, cartItems := s.cartItems) == s
  {
    if id !in s.carts then Failure(NotFoundError)
    else
      Success(s.(
        carts := s.carts - {id},
        cartItems := map i | i in s.cartItems && s.cartItems[i].cart != id :: s.cartItems[i]))
  }

  /** Nothing refers to a cart item. */
  function DeleteCartItem(s: Store, id: Id): (r: Result<Store, Error>)
    ensures r.Success? <==> id in s.cartItems
    ensures r.Failure? ==> r.error == NotFoundError
    ensures r.Success? ==> r.value.cartItems == s.cartItems - {id}
    ensures r.Success? ==> r.value.(cartItems := s.cartItems) == s
  {
    if id !in s.cartItems then Failure(NotFoundError)
    else Success(s.(cartItems := s.cartItems - {id}))
  }

  /** Nothing refers to an address; deleting one leaves its customer in place. */
  function DeleteAddress(s: Store, id: Id): (r: Result<Store, Error>)
    ensures r.Success? <==> id in s.addresses
    ensures r.Failure? ==> r.error == NotFoundError
    ensures r.Success? ==> r.value.addresses == s.addresses - {id}
    ensures r.Success? ==> r.value.(addresses := s.addresses) == s
  {
    if id !in s.addresses then Failure(NotFoundError)
    else Success(s.(addresses := s.addresses - {id}))
  }

  function Delete(s: Store, k: Kind, id: Id): Result<Store, Error>
  {
    match k
    case CollectionKind => DeleteCollection(s, id)
    case ProductKind => DeleteProduct(s, id)
    case CustomerKind => DeleteCustomer(s, id)
    case OrderKind => DeleteOrder(s, id)
    case OrderItemKind => DeleteOrderItem(s, id)
    case CartKind => DeleteCart(s, id)
    case CartItemKind => DeleteCartItem(s, id)
    case AddressKind => DeleteAddress(s, id)
  }

  // ---------------------------------------------------------------------------
  // The store as a state machine

  datatype Op =
    | CreateOp(id: Id, row: Row, now: Timestamp)
    | UpdateOp(id: Id, row: Row, now: Timestamp)
    | DeleteOp(kind: Kind, id: Id)

  function Apply(s: Store, op: Op): Result<Store, Error>
  {
    match op
    case CreateOp(id, row, now) => Create(s, id, row, now)
    case UpdateOp(id, row, now) => Update(s, id, row, now)
    case DeleteOp(k, id) => Delete(s, k, id)
  }

  /** The store after `op`: the new store, or `s` itself when `op` is refused. */
  function Step(s: Store, op: Op): Store
  {
    match Apply(s, op)
    case Success(t) => t
    case Failure(_) => s
  }

  function Run(s: Store, ops: seq<Op>): Store
    decreases |ops|
  {
    if ops == [] then s else Run(Step(s, ops[0]), ops[1..])
  }

  // ---------------------------------------------------------------------------
  // The invariant

  /** Every reference names an existing row. */
  predicate NoDangling(s: Store)
  {
    && (forall c :: c in s.collections && s.collections[c].featuredProduct.Some? ==>
          s.collections[c].featuredProduct.value in s.products)
    && (forall p :: p in s.products ==> s.products[p].collection in s.collections)
    && (forall o :: o in s.orders ==> s.orders[o].customer in s.customers)
    && (forall i :: i in s.orderItems ==>
          s.orderItems[i].order in s.orders && s.orderItems[i].product in s.products)
    && (forall i :: i in s.cartItems ==>
          s.cartItems[i].cart in s.carts && s.cartItems[i].product in s.products)
    && (forall a :: a in s.addresses ==> a in s.customers)
  }

  /** Every stored row meets its declared field constraints. */
  predicate FieldsValid(s: Store)
  {
    && (forall c :: c in s.collections ==> CollectionOk(s.collections[c]))
    && (forall p :: p in s.products ==> ProductOk(s.products[p]))
    && (forall c :: c in s.customers ==> CustomerOk(s.customers[c]))
    && (forall i :: i in s.orderItems ==> OrderItemOk(s.orderItems[i]))
    && (forall i :: i in s.cartItems ==> CartItemOk(s.cartItems[i]))
    && (forall a :: a in s.addresses ==> AddressOk(s.addresses[a]))
  }

  /** `Customer.email` is unique. */
  predicate EmailsUnique(s: Store)
  {
    forall i, j :: i in s.customers && j in s.customers && i != j ==>
      s.customers[i].email != s.customers[j].email
  }

  predicate Valid(s: Store)
  {
    NoDangling(s) && FieldsValid(s) && EmailsUnique(s)
  }
}
