/** The entities of the catalog and order store (store/models.py): one datatype
    per model, its declared field constraints, and its string form.

    Decimal prices are integer cents; strings are sequences of characters;
    timestamps and dates are opaque integers supplied by the caller. */
module Models {
  import opened Results

  /** A surrogate primary key, chosen by the database. */
  type Id = nat
  /** A decimal amount with two fractional digits, as a whole number of cents. */
  type Cents = int
  /** An opaque clock reading (auto_now / auto_now_add columns). */
  type Timestamp = int
  /** An opaque calendar date. */
  type Date = int

  /** `max_length=255` of every CharField and SlugField of the store. */
  const MaxLength: nat := 255

  /** `MinValueValidator(Decimal(1.0))` on Product.unit_price: 1.00. */
  const MinUnitPrice: Cents := 100
  /** The largest amount `max_digits=6, decimal_places=2` admits: 9999.99. */
  const MaxAmount: Cents := 999999

  datatype Membership = Gold | Silver | Bronze

  datatype PaymentStatus = Complete | Pending | Failed

  datatype Collection = Collection(title: string, featuredProduct: Option<Id>)

  datatype Product = Product(
    title: string,
    slug: string,
    description: Option<string>,
    unitPrice: Cents,
    inventory: int,
    lastUpdate: Timestamp,
    collection: Id)

  datatype Customer = Customer(
    firstName: string,
    lastName: string,
    email: string,
    phone: string,
    birthDate: Option<Date>,
    membership: Membership)

  datatype Order = Order(placedAt: Timestamp, paymentStatus: PaymentStatus, customer: Id)

  /** `unitPrice` is the price captured when the item was ordered. */
  datatype OrderItem = OrderItem(order: Id, product: Id, quantity: int, unitPrice: Cents)

  datatype Cart = Cart(createdAt: Timestamp)

  datatype CartItem = CartItem(cart: Id, product: Id, quantity: int)

  /** An address is stored under the key of its customer, so it carries no
      customer field of its own. */
  datatype Address = Address(street: string, city: string)

  /** The name of a field a validation error is reported against. Fields that
      hold a reference end in `Key`. */
  datatype Field =
    | Title | Slug | UnitPrice | Inventory | CollectionKey | FeaturedProduct
    | FirstName | LastName | Email | Phone
    | CustomerKey | OrderKey | ProductKey | CartKey | Quantity
    | Street | City

  /** The fields of a value that break their declared length limit. */
  function LengthError(value: string, f: Field): set<Field>
  {
    if |value| <= MaxLength then {} else {f}
  }

  /** An amount that fits `max_digits=6, decimal_places=2`. */
  predicate AmountFits(c: Cents)
  {
    -MaxAmount <= c <= MaxAmount
  }

  /** Fields of a Collection that break a constraint needing no other row. */
  predicate CollectionOk(c: Collection)
  {
    |c.title| <= MaxLength
  }

  function CollectionErrors(c: Collection): (r: set<Field>)
    ensures r == {} <==> CollectionOk(c)
    ensures r <= {Title}
  {
    LengthError(c.title, Title)
  }

  predicate ProductOk(p: Product)
  {
    && |p.title| <= MaxLength && |p.slug| <= MaxLength
    && MinUnitPrice <= p.unitPrice <= MaxAmount
    && 0 <= p.inventory
  }

  function ProductErrors(p: Product): (r: set<Field>)
    ensures r == {} <==> ProductOk(p)
    ensures UnitPrice in r <==> !(MinUnitPrice <= p.unitPrice <= MaxAmount)
    ensures Inventory in r <==> p.inventory < 0
    ensures Title in r <==> |p.title| > MaxLength
    ensures Slug in r <==> |p.slug| > MaxLength
    ensures r <= {Title, Slug, UnitPrice, Inventory}
  {
    LengthError(p.title, Title) + LengthError(p.slug, Slug)
    + (if MinUnitPrice <= p.unitPrice && AmountFits(p.unitPrice) then {} else {UnitPrice})
    + (if 0 <= p.inventory then {} else {Inventory})
  }

  predicate CustomerOk(c: Customer)
  {
    |c.firstName| <= MaxLength && |c.lastName| <= MaxLength && |c.phone| <= MaxLength
  }

  function CustomerErrors(c: Customer): (r: set<Field>)
    ensures r == {} <==> CustomerOk(c)
    ensures FirstName in r <==> |c.firstName| > MaxLength
    ensures LastName in r <==> |c.lastName| > MaxLength
    ensures Phone in r <==> |c.phone| > MaxLength
    ensures r <= {FirstName, LastName, Phone}
  {
    LengthError(c.firstName, FirstName) + LengthError(c.lastName, LastName)
    + LengthError(c.phone, Phone)
  }

  predicate OrderItemOk(i: OrderItem)
  {
    0 <= i.quantity && AmountFits(i.unitPrice)
  }

  function OrderItemErrors(i: OrderItem): (r: set<Field>)
    ensures r == {} <==> OrderItemOk(i)
    ensures Quantity in r <==> i.quantity < 0
    ensures UnitPrice in r <==> !AmountFits(i.unitPrice)
    ensures r <= {Quantity, UnitPrice}
  {
    (if 0 <= i.quantity then {} else {Quantity})
    + (if AmountFits(i.unitPrice) then {} else {UnitPrice})
  }

  predicate CartItemOk(i: CartItem)
  {
    0 <= i.quantity
  }

  function CartItemErrors(i: CartItem): (r: set<Field>)
    ensures r == {} <==> CartItemOk(i)
    ensures Quantity in r <==> i.quantity < 0
    ensures r <= {Quantity}
  {
    if 0 <= i.quantity then {} else {Quantity}
  }

  predicate AddressOk(a: Address)
  {
    |a.street| <= MaxLength && |a.city| <= MaxLength
  }

  function AddressErrors(a: Address): (r: set<Field>)
    ensures r == {} <==> AddressOk(a)
    ensures Street in r <==> |a.street| > MaxLength
    ensures City in r <==> |a.city| > MaxLength
    ensures r <= {Street, City}
  {
    LengthError(a.street, Street) + LengthError(a.city, City)
  }

  /** `Collection.__str__`. */
  function CollectionStr(c: Collection): (r: string)
    ensures r == c.title
  {
    c.title
  }

  /** `Customer.__str__`: first and last name joined by one space. */
  function CustomerStr(c: Customer): (r: string)
    ensures |r| == |c.firstName| + 1 + |c.lastName|
    ensures r[..|c.firstName|] == c.firstName
    ensures r[|c.firstName|] == ' '
    ensures r[|c.firstName| + 1..] == c.lastName
  {
    c.firstName + " " + c.lastName
  }
}
