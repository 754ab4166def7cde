/** The computed columns of the admin list pages (store/admin.py). Each reads
    a row and, through a reference, the row it points at; in a valid store
    that row always exists. */
module Admin {
  import opened Models
  import opened Storefront

  /** Inventory above this count is shown as "HIGH". */
  const HighInventoryAbove: int := 10

  /** ProductAdmin.inventory_status. */
  function InventoryStatus(p: Product): (r: string)
    ensures r == "HIGH" || r == "LOW"
    ensures r == "HIGH" <==> p.inventory > HighInventoryAbove
    ensures r == "LOW" <==> p.inventory <= HighInventoryAbove
  {
    if p.inventory > HighInventoryAbove then "HIGH" else "LOW"
  }

  /** The threshold sits between 10 and 11. */
  lemma InventoryStatusBoundary(p: Product, q: Product)
    requires p.inventory == 10 && q.inventory == 11
    ensures InventoryStatus(p) == "LOW" && InventoryStatus(q) == "HIGH"
  {
  }

  /** The column is sorted by `inventory`, and the status agrees with that
      order: more stock never shows a lower status. */
  lemma InventoryStatusMonotone(p: Product, q: Product)
    requires p.inventory <= q.inventory
    ensures InventoryStatus(p) == "HIGH" ==> InventoryStatus(q) == "HIGH"
    ensures InventoryStatus(q) == "LOW" ==> InventoryStatus(p) == "LOW"
  {
  }

  /** ProductAdmin.collection_title: the title of the product's collection. */
  function CollectionTitle(s: Store, p: Product): (r: string)
    requires p.collection in s.collections
    ensures r == CollectionStr(s.collections[p.collection])
  {
    s.collections[p.collection].title
  }

  /** In a valid store the collection column can be shown for every product. */
  lemma CollectionTitleDefined(s: Store, id: Id)
    requires Valid(s) && id in s.products
    ensures s.products[id].collection in s.collections
    ensures CollectionTitle(s, s.products[id]) == s.collections[s.products[id].collection].title
  {
  }

  /** OrderAdmin.customer_full_name: the name of the order's customer. */
  function CustomerFullName(s: Store, o: Order): (r: string)
    requires o.customer in s.customers
    ensures r == CustomerStr(s.customers[o.customer])
  {
    var firstName := s.customers[o.customer].firstName;
    var lastName := s.customers[o.customer].lastName;
    firstName + " " + lastName
  }

  /** The full name is the first name, one space, then the last name. */
  lemma CustomerFullNameParts(s: Store, o: Order)
    requires o.customer in s.customers
    ensures var c := s.customers[o.customer];
      var r := CustomerFullName(s, o);
      && |r| == |c.firstName| + 1 + |c.lastName|
      && r[..|c.firstName|] == c.firstName
      && r[|c.firstName|] == ' '
      && r[|c.firstName| + 1..] == c.lastName
  {
  }

  /** In a valid store the customer column can be shown for every order. */
  lemma CustomerFullNameDefined(s: Store, id: Id)
    requires Valid(s) && id in s.orders
    ensures s.orders[id].customer in s.customers
  {
  }
}
