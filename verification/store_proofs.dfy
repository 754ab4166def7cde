/** Properties of the store: the integrity invariant is established by the
    empty store and kept by every operation, and the individual promises of
    the field constraints and on_delete policies. */
module StoreProofs {
  import opened Results
  import opened Models
  import opened Storefront

  lemma EmptyIsValid()
    ensures Valid(Empty)
  {
  }

  /** Saving a row does not change which of its fields are valid. */
  lemma StampKeepsErrors(s: Store, id: Id, row: Row, now: Timestamp, stored: Option<Row>)
    ensures KindOf(Stamp(row, now, stored)) == KindOf(row)
    ensures FieldErrors(s, id, Stamp(row, now, stored)) == FieldErrors(s, id, row)
    ensures EmailClash(s, id, Stamp(row, now, stored)) == EmailClash(s, id, row)
  {
  }

  /** Storing a row that passes validation keeps the store valid, whether it
      adds a row or replaces one. */
  lemma PutKeepsValid(s: Store, id: Id, row: Row)
    requires Valid(s)
    requires FieldErrors(s, id, row) == {} && !EmailClash(s, id, row)
    ensures Valid(Put(s, id, row))
  {
    assert StaticErrors(row) == {} && ReferenceErrors(s, id, row) == {};
    match row
    case CollectionRow(c) => PutCollectionKeepsValid(s, id, c);
    case ProductRow(p) => PutProductKeepsValid(s, id, p);
    case CustomerRow(c) => PutCustomerKeepsValid(s, id, c);
    case OrderRow(o) => PutOrderKeepsValid(s, id, o);
    case OrderItemRow(i) => PutOrderItemKeepsValid(s, id, i);
    case CartRow(c) => PutCartKeepsValid(s, id, c);
    case CartItemRow(i) => PutCartItemKeepsValid(s, id, i);
    case AddressRow(a) => PutAddressKeepsValid(s, id, a);
  }

  lemma PutCollectionKeepsValid(s: Store, id: Id, c: Collection)
    requires Valid(s) && CollectionOk(c)
    requires c.featuredProduct.Some? ==> c.featuredProduct.value in s.products
    ensures Valid(s.(collections := s.collections[id := c]))
  {
  }

  lemma PutProductKeepsValid(s: Store, id: Id, p: Product)
    requires Valid(s) && ProductOk(p) && p.collection in s.collections
    ensures Valid(s.(products := s.products[id := p]))
  {
  }

  lemma PutCustomerKeepsValid(s: Store, id: Id, c: Customer)
    requires Valid(s) && CustomerOk(c) && !EmailTaken(s, id, c.email)
    ensures Valid(s.(customers := s.customers[id := c]))
  {
  }

  lemma PutOrderKeepsValid(s: Store, id: Id, o: Order)
    requires Valid(s) && o.customer in s.customers
    ensures Valid(s.(orders := s.orders[id := o]))
  {
  }

  lemma PutOrderItemKeepsValid(s: Store, id: Id, i: OrderItem)
    requires Valid(s) && OrderItemOk(i) && i.order in s.orders && i.product in s.products
    ensures Valid(s.(orderItems := s.orderItems[id := i]))
  {
  }

  lemma PutCartKeepsValid(s: Store, id: Id, c: Cart)
    requires Valid(s)
    ensures Valid(s.(carts := s.carts[id := c]))
  {
  }

  lemma PutCartItemKeepsValid(s: Store, id: Id, i: CartItem)
    requires Valid(s) && CartItemOk(i) && i.cart in s.carts && i.product in s.products
    ensures Valid(s.(cartItems := s.cartItems[id := i]))
  {
  }

  lemma PutAddressKeepsValid(s: Store, id: Id, a: Address)
    requires Valid(s) && AddressOk(a) && id in s.customers
    ensures Valid(s.(addresses := s.addresses[id := a]))
  {
  }

  lemma CreateKeepsValid(s: Store, id: Id, row: Row, now: Timestamp)
    requires Valid(s)
    ensures Create(s, id, row, now).Success? ==> Valid(Create(s, id, row, now).value)
  {
    if Create(s, id, row, now).Success? {
      StampKeepsErrors(s, id, row, now, None);
      PutKeepsValid(s, id, Stamp(row, now, None));
    }
  }

  lemma UpdateKeepsValid(s: Store, id: Id, row: Row, now: Timestamp)
    requires Valid(s)
    ensures Update(s, id, row, now).Success? ==> Valid(Update(s, id, row, now).value)
  {
    if Update(s, id, row, now).Success? {
      var stored := Get(s, KindOf(row), id);
      StampKeepsErrors(s, id, row, now, stored);
      PutKeepsValid(s, id, Stamp(row, now, stored));
    }
  }

  lemma DeleteKeepsValid(s: Store, k: Kind, id: Id)
    requires Valid(s)
    ensures Delete(s, k, id).Success? ==> Valid(Delete(s, k, id).value)
  {
    match k
    case CollectionKind => DeleteCollectionKeepsValid(s, id);
    case ProductKind => DeleteProductKeepsValid(s, id);
    case CustomerKind => DeleteCustomerKeepsValid(s, id);
    case OrderKind => DeleteOrderKeepsValid(s, id);
    case OrderItemKind => DeleteOrderItemKeepsValid(s, id);
    case CartKind => DeleteCartKeepsValid(s, id);
    case CartItemKind => DeleteCartItemKeepsValid(s, id);
    case AddressKind => DeleteAddressKeepsValid(s, id);
  }


  lemma DeleteCollectionKeepsValid(s: Store, id: Id)
    requires Valid(s)
    ensures DeleteCollection(s, id).Success? ==> Valid(DeleteCollection(s, id).value)
  {
  }

  lemma DeleteProductKeepsValid(s: Store, id: Id)
    requires Valid(s)
    ensures DeleteProduct(s, id).Success? ==> Valid(DeleteProduct(s, id).value)
  {
  }

  lemma DeleteCustomerKeepsValid(s: Store, id: Id)
    requires Valid(s)
    ensures DeleteCustomer(s, id).Success? ==> Valid(DeleteCustomer(s, id).value)
  {
  }

  lemma DeleteOrderKeepsValid(s: Store, id: Id)
    requires Valid(s)
    ensures DeleteOrder(s, id).Success? ==> Valid(DeleteOrder(s, id).value)
  {
  }

  lemma DeleteOrderItemKeepsValid(s: Store, id: Id)
    requires Valid(s)
    ensures DeleteOrderItem(s, id).Success? ==> Valid(DeleteOrderItem(s, id).value)
  {
  }

  lemma DeleteCartKeepsValid(s: Store, id: Id)
    requires Valid(s)
    ensures DeleteCart(s, id).Success? ==> Valid(DeleteCart(s, id).value)
  {
  }

  lemma DeleteCartItemKeepsValid(s: Store, id: Id)
    requires Valid(s)
    ensures DeleteCartItem(s, id).Success? ==> Valid(DeleteCartItem(s, id).value)
  {
  }

  lemma DeleteAddressKeepsValid(s: Store, id: Id)
    requires Valid(s)
    ensures DeleteAddress(s, id).Success? ==> Valid(DeleteAddress(s, id).value)
  {
  }

  lemma StepKeepsValid(s: Store, op: Op)
    requires Valid(s)
    ensures Valid(Step(s, op))
  {
    match op
    case CreateOp(id, row, now) => CreateKeepsValid(s, id, row, now);
    case UpdateOp(id, row, now) => UpdateKeepsValid(s, id, row, now);
    case DeleteOp(k, id) => DeleteKeepsValid(s, k, id);
  }

  /** No sequence of operations, successful or refused, ever leaves a
      dangling reference, a broken field constraint or a repeated email. */
  lemma {:induction false} RunKeepsValid(s: Store, ops: seq<Op>)
    requires Valid(s)
    ensures Valid(Run(s, ops))
    decreases |ops|
  {
    if ops != [] {
      StepKeepsValid(s, ops[0]);
      RunKeepsValid(Step(s, ops[0]), ops[1..]);
    }
  }

  /** Every store reachable from the empty one holds no negative inventory or
      quantity and no product priced outside 1.00 .. 9999.99. */
  lemma ReachableCountsAndPrices(ops: seq<Op>)
    ensures var t := Run(Empty, ops);
      && (forall p :: p in t.products ==>
            t.products[p].inventory >= 0 && MinUnitPrice <= t.products[p].unitPrice <= MaxAmount)
      && (forall i :: i in t.orderItems ==> t.orderItems[i].quantity >= 0)
      && (forall i :: i in t.cartItems ==> t.cartItems[i].quantity >= 0)
  {
    EmptyIsValid();
    RunKeepsValid(Empty, ops);
  }

  /** A product is stored only with a price of at least 1.00 and at most
      9999.99; any other price is refused and reported against `unit_price`. */
  lemma ProductPriceBounds(s: Store, id: Id, p: Product, now: Timestamp)
    ensures Create(s, id, ProductRow(p), now).Success? ==> MinUnitPrice <= p.unitPrice <= MaxAmount
    ensures Update(s, id, ProductRow(p), now).Success? ==> MinUnitPrice <= p.unitPrice <= MaxAmount
    ensures !(MinUnitPrice <= p.unitPrice <= MaxAmount) && id !in s.products ==>
      Create(s, id, ProductRow(p), now).Failure? &&
      Create(s, id, ProductRow(p), now).error.ValidationError? &&
      UnitPrice in Create(s, id, ProductRow(p), now).error.fields
    ensures !(MinUnitPrice <= p.unitPrice <= MaxAmount) && id in s.products ==>
      Update(s, id, ProductRow(p), now).Failure? &&
      Update(s, id, ProductRow(p), now).error.ValidationError? &&
      UnitPrice in Update(s, id, ProductRow(p), now).error.fields
  {
    assert StaticErrors(ProductRow(p)) == ProductErrors(p);
  }

  /** A customer whose email another customer already has is refused, and no
      row is added. */
  lemma DuplicateEmailRefused(s: Store, id: Id, c: Customer, now: Timestamp, other: Id)
    requires other in s.customers && other != id && s.customers[other].email == c.email
    ensures Create(s, id, CustomerRow(c), now).Failure?
    ensures CustomerErrors(c) == {} && id !in s.customers ==>
      Create(s, id, CustomerRow(c), now) == Failure(UniquenessError(Email))
    ensures Step(s, CreateOp(id, CustomerRow(c), now)).customers == s.customers
  {
    assert EmailTaken(s, id, c.email);
    assert ReferenceErrors(s, id, CustomerRow(c)) == {};
  }

  /** Changing a product, its price included, leaves every order item, and so
      every captured `OrderItem.unit_price`, as it was. */
  lemma PriceSnapshot(s: Store, id: Id, p: Product, now: Timestamp)
    requires Update(s, id, ProductRow(p), now).Success?
    ensures Update(s, id, ProductRow(p), now).value.orderItems == s.orderItems
  {
    var t := Update(s, id, ProductRow(p), now).value;
    forall j
      ensures j in t.orderItems <==> j in s.orderItems
      ensures j in s.orderItems ==> t.orderItems[j] == s.orderItems[j]
    {
      assert Get(t, OrderItemKind, j) == Get(s, OrderItemKind, j);
    }
  }

  /** Deleting a cart leaves no cart item pointing at it. */
  lemma DeleteCartLeavesNoOrphans(s: Store, id: Id)
    requires Valid(s) && id in s.carts
    ensures var t := DeleteCart(s, id).value;
      forall i :: i in t.cartItems ==> t.cartItems[i].cart != id && t.cartItems[i].cart in t.carts
  {
  }

  /** Deleting a customer without orders removes its one address, if any, and
      every other address stays. */
  lemma DeleteCustomerTakesAddress(s: Store, id: Id)
    requires Valid(s) && id in s.customers && OrdersOfCustomer(s, id) == {}
    ensures DeleteCustomer(s, id).Success?
    ensures id !in DeleteCustomer(s, id).value.addresses
    ensures forall a :: a in s.addresses && a != id ==> a in DeleteCustomer(s, id).value.addresses
  {
  }

  /** An address is stored under its customer's key, so a customer can have
      at most one: a second address for the same customer is refused. */
  lemma SecondAddressRefused(s: Store, c: Id, a: Address, now: Timestamp)
    requires c in s.addresses
    ensures Create(s, c, AddressRow(a), now) == Failure(DuplicateKeyError)
    ensures Step(s, CreateOp(c, AddressRow(a), now)) == s
  {
  }

  /** A collection cannot go while a product is in it; once the product is
      gone, it can. */
  lemma FictionScenario()
    ensures
      var fiction := Collection("Fiction", None);
      var novel := Product("Novel", "novel", None, 999, 5, 0, 1);
      var s1 := Create(Empty, 1, CollectionRow(fiction), 0);
      s1.Success? &&
      var s2 := Create(s1.value, 7, ProductRow(novel), 0);
      s2.Success? &&
      ProductsInCollection(s2.value, 1) == {7} &&
      DeleteCollection(s2.value, 1) == Failure(ReferentialIntegrityError({7})) &&
      var s3 := DeleteProduct(s2.value, 7);
      s3.Success? && DeleteCollection(s3.value, 1).Success?
  {
    var fiction := Collection("Fiction", None);
    var novel := Product("Novel", "novel", None, 999, 5, 0, 1);
    var s1 := Create(Empty, 1, CollectionRow(fiction), 0);
    assert FieldErrors(Empty, 1, CollectionRow(fiction)) == {};
    var s2 := Create(s1.value, 7, ProductRow(novel), 0);
    assert FieldErrors(s1.value, 7, ProductRow(novel)) == {};
    assert ProductsInCollection(s2.value, 1) == {7};
  }
}
