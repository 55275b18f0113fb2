/** Validation of an order request and the order-creation transaction
    (orders/serializers.py). The transaction is specified by the function
    `Transaction` over the stored catalog and implemented by the method
    `Create`, which follows the source loop by loop against a `Store`. */
module OrderSerializers {
  import opened Wrappers
  import opened OrderModels

  /** One requested line: `product_id` and `quantity`, as parsed. */
  datatype Line = Line(productId: ProductId, quantity: int)

  /** `IntegerField(min_value=1)`. */
  const MinQuantity: int := 1

  // ---------------------------------------------------------------------
  // Field validation of each line (OrderItemCreateSerializer)
  // ---------------------------------------------------------------------

  datatype FieldError = QuantityBelowMinimum | ProductMissing

  /** A field error, tagged with the position of its line in the request. */
  datatype LineError = LineError(index: nat, field: FieldError)

  predicate LineValid(products: map<ProductId, Product>, line: Line)
  {
    line.quantity >= MinQuantity && line.productId in products
  }

  /** The errors of one line: its quantity and its product id are checked
      independently, so a line may carry both. */
  function LineErrors(products: map<ProductId, Product>, line: Line, index: nat): seq<LineError>
  {
    (if line.quantity < MinQuantity then [LineError(index, QuantityBelowMinimum)] else [])
    + (if line.productId !in products then [LineError(index, ProductMissing)] else [])
  }

  /** All field errors of a request, line by line. The request is accepted
      exactly when there are none; an empty request has none. */
  function ValidateLines(products: map<ProductId, Product>, lines: seq<Line>): (r: seq<LineError>)
    ensures r == [] <==> forall i | 0 <= i < |lines| :: LineValid(products, lines[i])
    ensures forall e | e in r ::
      && e.index < |lines|
      && (e.field == QuantityBelowMinimum ==> lines[e.index].quantity < MinQuantity)
      && (e.field == ProductMissing ==> lines[e.index].productId !in products)
    ensures forall i | 0 <= i < |lines| ::
      && (lines[i].quantity < MinQuantity ==> LineError(i, QuantityBelowMinimum) in r)
      && (lines[i].productId !in products ==> LineError(i, ProductMissing) in r)
    decreases |lines|
  {
    if lines == [] then []
    else
      var n := |lines| - 1;
      ValidateLines(products, lines[..n]) + LineErrors(products, lines[n], n)
  }

  // ---------------------------------------------------------------------
  // The transaction, as a function of the stored catalog
  // ---------------------------------------------------------------------

  datatype CreateError =
    | ProductNotFound(productId: ProductId)
    | InsufficientStock(productId: ProductId, available: nat)
    | DecimalOverflow

  /** What a successful transaction writes: the new order, its items, and the
      catalog after the stock update. */
  datatype Created = Created(order: Order, items: seq<OrderItem>, products: map<ProductId, Product>)

  /** Lines that passed field validation: every quantity is at least one. */
  predicate QuantitiesValid(lines: seq<Line>)
  {
    forall i | 0 <= i < |lines| :: lines[i].quantity >= MinQuantity
  }

  /** The checks of one line in the first loop: the product must exist, and
      its STORED stock must cover the quantity. Nothing about earlier lines
      enters, because their decrements are only written at the end. */
  function LineFailure(products: map<ProductId, Product>, line: Line): Option<CreateError>
  {
    if line.productId !in products then Some(ProductNotFound(line.productId))
    else if products[line.productId].stock < line.quantity
    then Some(InsufficientStock(line.productId, products[line.productId].stock))
    else None
  }

  /** Every line passes its own check. */
  predicate Available(products: map<ProductId, Product>, lines: seq<Line>)
  {
    forall i | 0 <= i < |lines| :: LineFailure(products, lines[i]) == None
  }

  /** The error the first loop raises: that of the first failing line. */
  function FirstFailure(products: map<ProductId, Product>, lines: seq<Line>): (r: Option<CreateError>)
    ensures r == None <==> Available(products, lines)
    ensures r != Some(DecimalOverflow)
    decreases |lines|
  {
    if lines == [] then None
    else
      var n := |lines| - 1;
      match FirstFailure(products, lines[..n])
      case Some(e) => Some(e)
      case None => LineFailure(products, lines[n])
  }

  /** The in-memory copy the first loop keeps for one line: the stored row
      with the line's quantity taken off its stock. */
  function Decremented(products: map<ProductId, Product>, line: Line): Product
    requires LineFailure(products, line) == None
  {
    var p := products[line.productId];
    Product(p.price, p.stock - line.quantity)
  }

  /** `products_to_update`: one copy per line, in request order. */
  function Copies(products: map<ProductId, Product>, lines: seq<Line>): (r: seq<(ProductId, Product)>)
    requires Available(products, lines)
    ensures |r| == |lines|
    ensures forall i | 0 <= i < |lines| :: r[i] == (lines[i].productId, Decremented(products, lines[i]))
    decreases |lines|
  {
    if lines == [] then []
    else
      var n := |lines| - 1;
      Copies(products, lines[..n]) + [(lines[n].productId, Decremented(products, lines[n]))]
  }

  /** The products that some copy in `copies` is for. */
  function CopyKeys(copies: seq<(ProductId, Product)>): set<ProductId>
  {
    set i | 0 <= i < |copies| :: copies[i].0
  }

  /** `bulk_update` with no `batch_size`: one UPDATE that sets each row
      through a CASE over the copies' keys, in list order. The first WHEN
      that matches a row decides its value, so of two copies of one product
      the earlier one is written and the later one is ignored. */
  function WriteBack(products: map<ProductId, Product>, copies: seq<(ProductId, Product)>): map<ProductId, Product>
    decreases |copies|
  {
    if copies == [] then products
    else
      var n := |copies| - 1;
      var before := WriteBack(products, copies[..n]);
      if copies[n].0 in CopyKeys(copies[..n]) then before
      else before[copies[n].0 := copies[n].1]
  }

  /** The catalog once the transaction has committed. */
  function StockAfter(products: map<ProductId, Product>, lines: seq<Line>): map<ProductId, Product>
    requires Available(products, lines)
  {
    WriteBack(products, Copies(products, lines))
  }

  /** `total_price`: the sum of price times quantity over the lines. */
  function LineTotal(products: map<ProductId, Product>, lines: seq<Line>): Cents
    requires forall i | 0 <= i < |lines| :: lines[i].productId in products
    decreases |lines|
  {
    if lines == [] then 0
    else
      var n := |lines| - 1;
      LineTotal(products, lines[..n]) + products[lines[n].productId].price * lines[n].quantity
  }

  /** `order_items_to_create`: one item per line, in request order, each for
      the new order, with the line's quantity and the product's price. */
  function ItemsFor(order: OrderId, products: map<ProductId, Product>, lines: seq<Line>): (r: seq<OrderItem>)
    requires QuantitiesValid(lines)
    requires forall i | 0 <= i < |lines| :: lines[i].productId in products
    ensures |r| == |lines|
    ensures forall i | 0 <= i < |lines| ::
      r[i] == OrderItem(order, lines[i].productId, lines[i].quantity, products[lines[i].productId].price)
    decreases |lines|
  {
    if lines == [] then []
    else
      var n := |lines| - 1;
      var p := products[lines[n].productId];
      ItemsFor(order, products, lines[..n]) + [OrderItem(order, lines[n].productId, lines[n].quantity, p.price)]
  }

  /** Every item price fits its decimal column. */
  predicate PricesFit(items: seq<OrderItem>)
  {
    forall i | 0 <= i < |items| :: FitsDecimal(items[i].price)
  }

  /** The outcome of `OrderCreateSerializer.create` on the stored catalog
      `products`: the first failing line's error; else an overflow of the
      order's total when the order row is inserted, or of an item price when
      the items are inserted; else the order, its items and the updated
      catalog. */
  function Transaction(products: map<ProductId, Product>, owner: UserId, lines: seq<Line>,
                       id: OrderId, now: Timestamp): (r: Result<Created, CreateError>)
    requires QuantitiesValid(lines)
    ensures r.Failure? && r.error != DecimalOverflow <==> !Available(products, lines)
    ensures r.Success? ==>
      && r.value.order == Order(id, owner, now, r.value.order.totalPrice)
      && FitsDecimal(r.value.order.totalPrice)
      && |r.value.items| == |lines|
      && PricesFit(r.value.items)
      && r.value.products.Keys == products.Keys
  {
    match FirstFailure(products, lines)
    case Some(e) => Failure(e)
    case None =>
      var total := LineTotal(products, lines);
      var items := ItemsFor(id, products, lines);
      if !FitsDecimal(total) then Failure(DecimalOverflow)
      else if !PricesFit(items) then Failure(DecimalOverflow)
      else
        WriteBackKeys(products, Copies(products, lines));
        Success(Created(Order(id, owner, now, total), items, StockAfter(products, lines)))
  }

  /** Writing back copies of stored products adds no key. */
  lemma {:induction false} WriteBackKeys(products: map<ProductId, Product>, copies: seq<(ProductId, Product)>)
    requires forall i | 0 <= i < |copies| :: copies[i].0 in products
    ensures WriteBack(products, copies).Keys == products.Keys
    decreases |copies|
  {
    if copies != [] {
      WriteBackKeys(products, copies[..|copies| - 1]);
    }
  }

  // ---------------------------------------------------------------------
  // The transaction, step by step, against the store
  // ---------------------------------------------------------------------

  /** The first loop (lines 67-81): look each product up, check its stock,
      add price times quantity to the running total, and keep a decremented
      copy. Returns the error of the first failing line, or the total and the
      copies. Reads the catalog and changes nothing. */
  method CheckLines(products: map<ProductId, Product>, lines: seq<Line>)
    returns (r: Result<(Cents, seq<(ProductId, Product)>), CreateError>)
    ensures FirstFailure(products, lines) == None <==> r.Success?
    ensures r.Failure? ==> Some(r.error) == FirstFailure(products, lines)
    ensures r.Success? ==> r.value == (LineTotal(products, lines), Copies(products, lines))
  {
    var total := 0;
    var toUpdate: seq<(ProductId, Product)> := [];
    var i := 0;
    while i < |lines|
      invariant 0 <= i <= |lines|
      invariant Available(products, lines[..i])
      invariant total == LineTotal(products, lines[..i])
      invariant toUpdate == Copies(products, lines[..i])
    {
      var line := lines[i];
      assert lines[..i + 1] == lines[..i] + [line];
      assert lines[..i + 1][..i] == lines[..i];
      if line.productId !in products {
        FailureIsFirst(products, lines, i);
        return Failure(ProductNotFound(line.productId));
      }
      var product := products[line.productId];
      if product.stock < line.quantity {
        FailureIsFirst(products, lines, i);
        return Failure(InsufficientStock(line.productId, product.stock));
      }
      total := total + product.price * line.quantity;
      toUpdate := toUpdate + [(line.productId, Product(product.price, product.stock - line.quantity))];
      i := i + 1;
    }
    assert lines[..i] == lines;
    r := Success((total, toUpdate));
  }

  /** The second loop (lines 85-95): re-read each product and build one item
      per line for order `id`; `fits` tells whether every item price fits its
      column. Changes nothing. */
  method BuildItems(id: OrderId, products: map<ProductId, Product>, lines: seq<Line>)
    returns (items: seq<OrderItem>, fits: bool)
    requires QuantitiesValid(lines)
    requires forall i | 0 <= i < |lines| :: lines[i].productId in products
    ensures items == ItemsFor(id, products, lines)
    ensures fits == PricesFit(items)
  {
    items, fits := [], true;
    var k := 0;
    while k < |lines|
      invariant 0 <= k <= |lines|
      invariant items == ItemsFor(id, products, lines[..k])
      invariant fits == PricesFit(items)
    {
      assert lines[..k + 1] == lines[..k] + [lines[k]];
      assert lines[..k + 1][..k] == lines[..k];
      var product := products[lines[k].productId];
      items := items + [OrderItem(id, lines[k].productId, lines[k].quantity, product.price)];
      fits := fits && FitsDecimal(product.price);
      k := k + 1;
    }
    assert lines[..k] == lines;
  }

  /** `bulk_update` (line 99): go through the copies in list order and
      write each one whose product no earlier copy has claimed, as the CASE
      of the single UPDATE does. Changes nothing but its result. */
  method BulkUpdate(products: map<ProductId, Product>, copies: seq<(ProductId, Product)>)
    returns (updated: map<ProductId, Product>)
    ensures updated == WriteBack(products, copies)
  {
    updated := products;
    var written: set<ProductId> := {};
    var j := 0;
    while j < |copies|
      invariant 0 <= j <= |copies|
      invariant written == CopyKeys(copies[..j])
      invariant updated == WriteBack(products, copies[..j])
    {
      assert copies[..j + 1][..j] == copies[..j];
      assert CopyKeys(copies[..j + 1]) == written + {copies[j].0} by {
        assert forall i | 0 <= i < j + 1 :: copies[..j + 1][i] == copies[i];
        assert forall i | 0 <= i < j :: copies[..j][i] == copies[i];
        assert copies[..j + 1][j] == copies[j];
      }
      if copies[j].0 !in written {
        updated := updated[copies[j].0 := copies[j].1];
      }
      written := written + {copies[j].0};
      j := j + 1;
    }
    assert copies[..j] == copies;
  }

  /** `OrderCreateSerializer.create` for `owner`. The loops of the source
      work on local values; the store is written only once all of them have
      succeeded, which is what the atomic block guarantees: on any error
      nothing changes. `id` and `now` are the fresh key and the clock
      reading of the new order. */
  method Create(store: Store, owner: UserId, lines: seq<Line>, id: OrderId, now: Timestamp)
    returns (r: Result<Order, CreateError>)
    requires store.Valid()
    requires id !in IdsOf(store.orders)
    requires QuantitiesValid(lines)
    modifies store
    ensures store.Valid()
    ensures match Transaction(old(store.products), owner, lines, id, now)
      case Failure(e) =>
        && r == Failure(e)
        && unchanged(store)
      case Success(c) =>
        && r == Success(c.order)
        && store.orders == old(store.orders) + [c.order]
        && store.items == old(store.items) + c.items
        && store.products == c.products
  {
    var products := store.products;
    var checked := CheckLines(products, lines);
    if checked.Failure? {
      return Failure(checked.error);
    }
    var (total, toUpdate) := checked.value;

    // Inserting the order row fails when the total overflows its column.
    if !FitsDecimal(total) {
      return Failure(DecimalOverflow);
    }
    var order := Order(id, owner, now, total);

    // Inserting the items fails when a price overflows its column.
    var newItems, fits := BuildItems(id, products, lines);
    if !fits {
      return Failure(DecimalOverflow);
    }

    var updated := BulkUpdate(products, toUpdate);
    WriteBackKeys(products, toUpdate);

    // Commit.
    CreatedRowsValid(store.orders, store.items, products, order, newItems, updated, lines);
    store.orders := store.orders + [order];
    store.items := store.items + newItems;
    store.products := updated;
    r := Success(order);
  }

  /** When line `i` is the first that fails, its error is the transaction's. */
  lemma FailureIsFirst(products: map<ProductId, Product>, lines: seq<Line>, i: nat)
    requires i < |lines|
    requires Available(products, lines[..i])
    requires LineFailure(products, lines[i]) != None
    ensures FirstFailure(products, lines) == LineFailure(products, lines[i])
  {
    assert lines[..i + 1][..i] == lines[..i];
    assert FirstFailure(products, lines[..i + 1]) == LineFailure(products, lines[i]);
    FailurePersists(products, lines, i + 1);
  }

  /** Once a prefix of the request fails, the whole request fails the same way. */
  lemma {:induction false} FailurePersists(products: map<ProductId, Product>, lines: seq<Line>, m: nat)
    requires m <= |lines|
    requires FirstFailure(products, lines[..m]) != None
    ensures FirstFailure(products, lines) == FirstFailure(products, lines[..m])
    decreases |lines| - m
  {
    if m < |lines| {
      assert lines[..m + 1][..m] == lines[..m];
      FailurePersists(products, lines, m + 1);
    } else {
      assert lines[..m] == lines;
    }
  }

  /** The rows a successful transaction appends keep the store valid. */
  lemma CreatedRowsValid(orders: seq<Order>, items: seq<OrderItem>, products: map<ProductId, Product>,
                         order: Order, newItems: seq<OrderItem>, updated: map<ProductId, Product>, lines: seq<Line>)
    requires UniqueIds(orders) && order.id !in IdsOf(orders)
    requires forall o | o in orders :: FitsDecimal(o.totalPrice)
    requires forall it | it in items :: it.order in IdsOf(orders) && it.product in products && FitsDecimal(it.price)
    requires FitsDecimal(order.totalPrice) && PricesFit(newItems)
    requires |newItems| == |lines|
    requires forall i | 0 <= i < |lines| :: newItems[i].order == order.id && newItems[i].product == lines[i].productId
    requires forall i | 0 <= i < |lines| :: lines[i].productId in products
    requires updated.Keys == products.Keys
    ensures UniqueIds(orders + [order])
    ensures forall o | o in orders + [order] :: FitsDecimal(o.totalPrice)
    ensures forall it | it in items + newItems ::
      it.order in IdsOf(orders + [order]) && it.product in updated && FitsDecimal(it.price)
  {
  }
}
