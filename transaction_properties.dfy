/** What the order-creation transaction of orders/serializers.py:59-101
    promises, proved about its specification `Transaction`. `Create` is
    proved equal to `Transaction` on the store, so all of this holds of it. */
module TransactionProperties {
  import opened Wrappers
  import opened OrderModels
  import opened OrderSerializers

  // ---------------------------------------------------------------------
  // Which error, and why
  // ---------------------------------------------------------------------

  /** The error of the first loop is that of a line of the request, and
      every line before it passes. */
  lemma {:induction false} FirstFailureIsALine(products: map<ProductId, Product>, lines: seq<Line>)
    returns (i: nat)
    requires FirstFailure(products, lines) != None
    ensures i < |lines|
    ensures FirstFailure(products, lines) == LineFailure(products, lines[i])
    ensures Available(products, lines[..i])
    decreases |lines|
  {
    var n := |lines| - 1;
    if FirstFailure(products, lines[..n]) != None {
      i := FirstFailureIsALine(products, lines[..n]);
      assert lines[..n][i] == lines[i];
      assert lines[..n][..i] == lines[..i];
    } else {
      i := n;
    }
  }

  /** A failed transaction names its cause: a missing product that some line
      asks for, or a stored product whose stock, reported as `available`, is
      below what some line asks for. */
  lemma FailureExplained(products: map<ProductId, Product>, owner: UserId, lines: seq<Line>,
                         id: OrderId, now: Timestamp)
    requires QuantitiesValid(lines)
    ensures Transaction(products, owner, lines, id, now).Failure? ==>
      match Transaction(products, owner, lines, id, now).error
      case ProductNotFound(pid) =>
        pid !in products && exists i | 0 <= i < |lines| :: lines[i].productId == pid
      case InsufficientStock(pid, available) =>
        && pid in products
        && available == products[pid].stock
        && exists i | 0 <= i < |lines| :: lines[i].productId == pid && lines[i].quantity > available
      case DecimalOverflow =>
        Available(products, lines)
  {
    if FirstFailure(products, lines) != None {
      var i := FirstFailureIsALine(products, lines);
      match FirstFailure(products, lines).value
      case ProductNotFound(pid) =>
        assert lines[i].productId == pid;
      case InsufficientStock(pid, available) =>
        assert lines[i].productId == pid;
      case DecimalOverflow =>
    }
  }

  /** A request that passed field validation never fails for a missing
      product: validation reads the same catalog. */
  lemma ValidatedRequestFindsProducts(products: map<ProductId, Product>, owner: UserId, lines: seq<Line>,
                                      id: OrderId, now: Timestamp)
    requires ValidateLines(products, lines) == []
    ensures QuantitiesValid(lines)
    ensures !Transaction(products, owner, lines, id, now).Failure?
         || !Transaction(products, owner, lines, id, now).error.ProductNotFound?
  {
  }

  /** Each line is checked against the stored stock alone: the request
      succeeds, totals permitting, exactly when every line on its own asks
      for no more than the stored stock of its product, however many other
      lines ask for the same product. */
  lemma CheckedAgainstStoredStock(products: map<ProductId, Product>, owner: UserId, lines: seq<Line>,
                                  id: OrderId, now: Timestamp)
    requires QuantitiesValid(lines)
    ensures Transaction(products, owner, lines, id, now).Success?
        <==> && (forall i | 0 <= i < |lines| ::
                   lines[i].productId in products && lines[i].quantity <= products[lines[i].productId].stock)
             && FitsDecimal(LineTotalOf(products, lines))
             && (forall i | 0 <= i < |lines| :: FitsDecimal(PriceOf(products, lines[i])))
  {
  }

  /** The total of a request; zero when a product is missing. */
  function LineTotalOf(products: map<ProductId, Product>, lines: seq<Line>): Cents
  {
    if forall i | 0 <= i < |lines| :: lines[i].productId in products then LineTotal(products, lines) else 0
  }

  /** The stored price of a line's product; zero when it is missing. */
  function PriceOf(products: map<ProductId, Product>, line: Line): Cents
  {
    if line.productId in products then products[line.productId].price else 0
  }

  // ---------------------------------------------------------------------
  // The order and its items
  // ---------------------------------------------------------------------

  /** The sum of price times quantity over a list of order items. */
  function ItemsTotal(items: seq<OrderItem>): Cents
    decreases |items|
  {
    if items == [] then 0
    else
      var n := |items| - 1;
      ItemsTotal(items[..n]) + items[n].price * items[n].quantity
  }

  lemma {:induction false} LineTotalIsItemsTotal(id: OrderId, products: map<ProductId, Product>, lines: seq<Line>)
    requires QuantitiesValid(lines)
    requires forall i | 0 <= i < |lines| :: lines[i].productId in products
    ensures LineTotal(products, lines) == ItemsTotal(ItemsFor(id, products, lines))
    decreases |lines|
  {
    if lines != [] {
      var n := |lines| - 1;
      var items := ItemsFor(id, products, lines);
      LineTotalIsItemsTotal(id, products, lines[..n]);
      assert items[..n] == ItemsFor(id, products, lines[..n]);
    }
  }

  /** On success the order's `total_price` is exactly the sum over its items
      of the captured price times the quantity, and there is one item per
      line, in request order, for the new order, with the line's product and
      quantity and the product's stored price. */
  lemma CreatedOrderMatchesItems(products: map<ProductId, Product>, owner: UserId, lines: seq<Line>,
                                 id: OrderId, now: Timestamp)
    requires QuantitiesValid(lines)
    requires Transaction(products, owner, lines, id, now).Success?
    ensures var c := Transaction(products, owner, lines, id, now).value;
      && c.order.id == id && c.order.owner == owner && c.order.createdAt == now
      && c.order.totalPrice == ItemsTotal(c.items)
      && |c.items| == |lines|
      && forall i | 0 <= i < |lines| ::
           && c.items[i].order == id
           && c.items[i].product == lines[i].productId
           && c.items[i].quantity == lines[i].quantity
           && lines[i].productId in products
           && c.items[i].price == products[lines[i].productId].price
  {
    LineTotalIsItemsTotal(id, products, lines);
  }

  /** An empty request is accepted: it creates an order with total zero and
      no items, and leaves the catalog as it was. */
  lemma EmptyRequestCreatesEmptyOrder(products: map<ProductId, Product>, owner: UserId, id: OrderId, now: Timestamp)
    ensures Transaction(products, owner, [], id, now) == Success(Created(Order(id, owner, now, 0), [], products))
  {
  }

  // ---------------------------------------------------------------------
  // Stock after the commit
  // ---------------------------------------------------------------------

  /** Of several copies of one key, the first one is written. */
  lemma {:induction false} WriteBackFirst(products: map<ProductId, Product>, copies: seq<(ProductId, Product)>, i: nat)
    requires i < |copies|
    requires forall j | 0 <= j < i :: copies[j].0 != copies[i].0
    ensures copies[i].0 in WriteBack(products, copies)
    ensures WriteBack(products, copies)[copies[i].0] == copies[i].1
    decreases |copies|
  {
    var n := |copies| - 1;
    if i < n {
      WriteBackFirst(products, copies[..n], i);
      if copies[n].0 == copies[i].0 {
        assert copies[..n][i] == copies[i];
      }
    } else {
      forall k | 0 <= k < n
        ensures copies[..n][k].0 != copies[n].0
      {
        assert copies[..n][k] == copies[k];
      }
    }
  }

  /** A key that no write touches keeps its value. */
  lemma {:induction false} WriteBackUntouched(products: map<ProductId, Product>, copies: seq<(ProductId, Product)>, pid: ProductId)
    requires pid in products
    requires forall j | 0 <= j < |copies| :: copies[j].0 != pid
    ensures pid in WriteBack(products, copies)
    ensures WriteBack(products, copies)[pid] == products[pid]
    decreases |copies|
  {
    if copies != [] {
      WriteBackUntouched(products, copies[..|copies| - 1], pid);
    }
  }

  /** The stock that persists for a product is the stored stock minus the
      quantity of the FIRST line that names it: each line's copy was made
      from the stored row, and the single UPDATE writes the first copy of a
      product and ignores the later ones. */
  lemma FirstLineWins(products: map<ProductId, Product>, lines: seq<Line>, i: nat)
    requires Available(products, lines)
    requires i < |lines|
    requires forall j | 0 <= j < i :: lines[j].productId != lines[i].productId
    ensures lines[i].productId in products && lines[i].productId in StockAfter(products, lines)
    ensures StockAfter(products, lines)[lines[i].productId]
         == Product(products[lines[i].productId].price, products[lines[i].productId].stock - lines[i].quantity)
  {
    assert LineFailure(products, lines[i]) == None;
    WriteBackFirst(products, Copies(products, lines), i);
  }

  /** A product that no line names is left as it was. */
  lemma UnreferencedUnchanged(products: map<ProductId, Product>, lines: seq<Line>, pid: ProductId)
    requires Available(products, lines)
    requires pid in products
    requires forall j | 0 <= j < |lines| :: lines[j].productId != pid
    ensures pid in StockAfter(products, lines) && StockAfter(products, lines)[pid] == products[pid]
  {
    WriteBackUntouched(products, Copies(products, lines), pid);
  }

  /** No two lines name the same product. */
  predicate DistinctProducts(lines: seq<Line>)
  {
    forall i, j | 0 <= i < j < |lines| :: lines[i].productId != lines[j].productId
  }

  /** When the lines name distinct products, a successful transaction takes
      each line's quantity off its product's stock, which stays non-negative,
      keeps every price, and leaves every other product as it was. */
  lemma DistinctLinesDecrementStock(products: map<ProductId, Product>, owner: UserId, lines: seq<Line>,
                                    id: OrderId, now: Timestamp)
    requires QuantitiesValid(lines)
    requires DistinctProducts(lines)
    requires Transaction(products, owner, lines, id, now).Success?
    ensures var after := Transaction(products, owner, lines, id, now).value.products;
      && after.Keys == products.Keys
      && (forall i | 0 <= i < |lines| ::
            && lines[i].productId in products
            && after[lines[i].productId].price == products[lines[i].productId].price
            && after[lines[i].productId].stock == products[lines[i].productId].stock - lines[i].quantity
            && products[lines[i].productId].stock - lines[i].quantity >= 0)
      && (forall pid | pid in products && (forall j | 0 <= j < |lines| :: lines[j].productId != pid) ::
            after[pid] == products[pid])
  {
    forall i | 0 <= i < |lines|
      ensures lines[i].productId in StockAfter(products, lines)
      ensures StockAfter(products, lines)[lines[i].productId]
           == Product(products[lines[i].productId].price, products[lines[i].productId].stock - lines[i].quantity)
    {
      FirstLineWins(products, lines, i);
    }
    forall pid | pid in products && (forall j | 0 <= j < |lines| :: lines[j].productId != pid)
      ensures StockAfter(products, lines)[pid] == products[pid]
    {
      UnreferencedUnchanged(products, lines, pid);
    }
  }

  /** Two lines for one product are each checked against the stored stock
      and the first copy is what is written: five in stock, two lines of
      three succeed, six units are ordered and two remain in stock. */
  lemma DuplicateLinesOversell()
    ensures var products := map[7 := Product(1000, 5)];
      var r := Transaction(products, 1, [Line(7, 3), Line(7, 3)], 42, 0);
      && r.Success?
      && r.value.order.totalPrice == 6000
      && |r.value.items| == 2 && r.value.items[0].quantity + r.value.items[1].quantity == 6
      && r.value.products[7].stock == 2
  {
    var products := map[7 := Product(1000, 5)];
    var lines := [Line(7, 3), Line(7, 3)];
    assert lines[..1] == [Line(7, 3)];
    assert FirstFailure(products, lines[..1]) == None;
    assert FirstFailure(products, lines) == None;
    assert LineTotal(products, lines[..1]) == 3000;
    assert LineTotal(products, lines) == 6000;
    assert FitsDecimal(6000) by { DecimalRange(6000); }
    var items := ItemsFor(42, products, lines);
    assert FitsDecimal(items[0].price) && FitsDecimal(items[1].price) by { DecimalRange(1000); }
    assert PricesFit(items);
    FirstLineWins(products, lines, 0);
    assert Transaction(products, 1, lines, 42, 0)
        == Success(Created(Order(42, 1, 0, 6000), items, StockAfter(products, lines)));
  }

  /** Of two lines for one product, the second one's decrement is lost:
      five in stock, lines of three and then one succeed, four units are
      ordered, and the stock written is two (five minus the first line's
      three), not one. */
  lemma DuplicateLinesFirstCopyKept()
    ensures var products := map[7 := Product(1000, 5)];
      var r := Transaction(products, 1, [Line(7, 3), Line(7, 1)], 43, 0);
      && r.Success?
      && r.value.order.totalPrice == 4000
      && |r.value.items| == 2 && r.value.items[0].quantity + r.value.items[1].quantity == 4
      && r.value.products == map[7 := Product(1000, 2)]
  {
    var products := map[7 := Product(1000, 5)];
    var lines := [Line(7, 3), Line(7, 1)];
    assert lines[..1] == [Line(7, 3)];
    assert FirstFailure(products, lines[..1]) == None;
    assert FirstFailure(products, lines) == None;
    assert LineTotal(products, lines[..1]) == 3000;
    assert LineTotal(products, lines) == 4000;
    assert FitsDecimal(4000) by { DecimalRange(4000); }
    var items := ItemsFor(43, products, lines);
    assert FitsDecimal(items[0].price) && FitsDecimal(items[1].price) by { DecimalRange(1000); }
    assert PricesFit(items);
    FirstLineWins(products, lines, 0);
    WriteBackKeys(products, Copies(products, lines));
    assert Transaction(products, 1, lines, 43, 0)
        == Success(Created(Order(43, 1, 0, 4000), items, StockAfter(products, lines)));
  }

  /** Product A at 10.00 with five in stock, product B at 3.50 with two:
      ordering two A and one B costs 23.50 and leaves three A and one B. */
  lemma WorkedExampleAccepted()
    ensures var products := map[1 := Product(1000, 5), 2 := Product(350, 2)];
      var r := Transaction(products, 9, [Line(1, 2), Line(2, 1)], 100, 0);
      && r.Success?
      && r.value.order.totalPrice == 2350
      && r.value.products == map[1 := Product(1000, 3), 2 := Product(350, 1)]
  {
    var products := map[1 := Product(1000, 5), 2 := Product(350, 2)];
    var lines := [Line(1, 2), Line(2, 1)];
    assert lines[..1] == [Line(1, 2)];
    assert FirstFailure(products, lines[..1]) == None;
    assert FirstFailure(products, lines) == None;
    assert LineTotal(products, lines[..1]) == 2000;
    assert LineTotal(products, lines) == 2350;
    assert FitsDecimal(2350) by { DecimalRange(2350); }
    var items := ItemsFor(100, products, lines);
    assert FitsDecimal(items[0].price) && FitsDecimal(items[1].price) by { DecimalRange(1000); DecimalRange(350); }
    assert PricesFit(items);
    assert Transaction(products, 9, lines, 100, 0)
        == Success(Created(Order(100, 9, 0, 2350), items, StockAfter(products, lines)));
    DistinctLinesDecrementStock(products, 9, lines, 100, 0);
  }

  /** With the same catalog, ordering three B is refused with two available. */
  lemma WorkedExampleRefused()
    ensures var products := map[1 := Product(1000, 5), 2 := Product(350, 2)];
      Transaction(products, 9, [Line(2, 3)], 101, 0) == Failure(InsufficientStock(2, 2))
  {
  }
}
