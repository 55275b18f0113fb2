/** The records of the orders app (orders/models.py) and the three tables the
    order logic touches, held by a `Store` whose fields the operations update
    in place. Decimal amounts are integer cents, so every sum is exact. */
module OrderModels {
  import opened Seqs

  /** Primary keys. Order and product keys are UUIDs in the source; here
      they are opaque numbers, and a fresh one is supplied by the caller. */
  type ProductId = nat
  type OrderId = nat
  type UserId = nat
  /** The value of `created_at`, as a number that grows with time. */
  type Timestamp = int
  /** A two-decimal amount, in hundredths. */
  type Cents = int

  /** The two columns of a catalog row that the order logic reads and writes. */
  datatype Product = Product(price: Cents, stock: nat)

  /** An order row. `owner` is the `user` the serializer and the view set and
      filter by; `customer_name`, `email`, `quantity` and `products` are
      columns the order logic never sets. */
  datatype Order = Order(id: OrderId, owner: UserId, createdAt: Timestamp, totalPrice: Cents)

  /** An order line: a positive-integer `quantity` and the unit `price`
      captured when the line was created. */
  datatype OrderItem = OrderItem(order: OrderId, product: ProductId, quantity: nat, price: Cents)

  /** `DecimalField(max_digits=10, decimal_places=2)`. */
  const MaxDigits: nat := 10
  const DecimalPlaces: nat := 2

  function Pow10(n: nat): nat
  {
    if n == 0 then 1 else 10 * Pow10(n - 1)
  }

  /** An amount the decimal columns can store: at most `MaxDigits` digits in
      all, `DecimalPlaces` of them after the point. In cents that is at most
      `MaxDigits` digits. A larger value makes PostgreSQL abort the insert
      ("numeric field overflow"), and with it the enclosing transaction. */
  predicate FitsDecimal(amount: Cents)
  {
    var bound: int := Pow10(MaxDigits);
    -bound < amount < bound
  }

  /** The decimal columns hold amounts up to 99 999 999.99 in either sign. */
  lemma DecimalRange(amount: Cents)
    ensures FitsDecimal(amount) <==> -9_999_999_999 <= amount <= 9_999_999_999
  {
  }

  /** No two orders share a primary key. */
  predicate UniqueIds(orders: seq<Order>)
  {
    forall i, j | 0 <= i < j < |orders| :: orders[i].id != orders[j].id
  }

  /** Removing orders from a sequence keeps its keys unique. */
  lemma {:induction false} FilterKeepsIdsUnique(orders: seq<Order>, keep: Order -> bool)
    requires UniqueIds(orders)
    ensures UniqueIds(Filter(orders, keep))
    decreases |orders|
  {
    if orders != [] {
      var rest := Filter(orders[1..], keep);
      FilterKeepsIdsUnique(orders[1..], keep);
      forall o | o in rest
        ensures o.id != orders[0].id
      {
        var k :| 0 <= k < |orders[1..]| && orders[1..][k] == o;
        assert orders[k + 1] == o;
      }
      assert Filter(orders, keep) == (if keep(orders[0]) then [orders[0]] else []) + rest;
    }
  }

  /** The keys of the orders in a sequence. */
  function IdsOf(orders: seq<Order>): set<OrderId>
  {
    set o | o in orders :: o.id
  }

  /** The `products`, `orders` and `order_items` tables. */
  class Store {
    var products: map<ProductId, Product>
    var orders: seq<Order>
    var items: seq<OrderItem>

    /** Primary keys are unique, every stored amount fits its decimal column,
        and every item refers to an order and a product that exist (the two
        foreign keys of orders/models.py:22-23). */
    ghost predicate Valid()
      reads this
    {
      && UniqueIds(orders)
      && (forall o | o in orders :: FitsDecimal(o.totalPrice))
      && (forall it | it in items :: it.order in IdsOf(orders) && it.product in products && FitsDecimal(it.price))
    }

    /** An empty database: no products, no orders, no items. */
    constructor ()
      ensures Valid()
      ensures products == map[] && orders == [] && items == []
    {
      products := map[];
      orders := [];
      items := [];
    }

    /** Deleting an order deletes its items (`on_delete=CASCADE` on
        `OrderItem.order`); products and the other orders stay. */
    method DeleteOrder(id: OrderId)
      requires Valid()
      modifies this
      ensures Valid()
      ensures orders == Filter(old(orders), (o: Order) => o.id != id)
      ensures items == Filter(old(items), (it: OrderItem) => it.order != id)
      ensures products == old(products)
      ensures id !in IdsOf(orders)
    {
      var oldOrders := orders;
      orders := Filter(orders, (o: Order) => o.id != id);
      items := Filter(items, (it: OrderItem) => it.order != id);
      FilterKeepsIdsUnique(oldOrders, (o: Order) => o.id != id);
      forall it | it in items
        ensures it.order in IdsOf(orders)
      {
        var o :| o in oldOrders && o.id == it.order;
        assert o in orders;
      }
    }

    /** Deleting a product deletes the items that refer to it
        (`on_delete=CASCADE` on `OrderItem.product`); the orders those items
        belonged to stay, with their totals. */
    method DeleteProduct(id: ProductId)
      requires Valid()
      modifies this
      ensures Valid()
      ensures products == old(products) - {id}
      ensures items == Filter(old(items), (it: OrderItem) => it.product != id)
      ensures orders == old(orders)
    {
      products := products - {id};
      items := Filter(items, (it: OrderItem) => it.product != id);
    }
  }
}
