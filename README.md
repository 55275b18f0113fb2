# Order placement of a small e-commerce backend, in Dafny

This project models the orders app of a Django REST backend. The orders app places an order for an authenticated user and lists that user's orders. The centre of it is `OrderCreateSerializer.create`, which does all of the following in one atomic block:

- it looks up each requested product;
- it rejects a line whose quantity exceeds the product's stored stock;
- it adds price × quantity to the order total;
- it creates the order and one item per line, each item capturing the product's current price;
- it writes the decremented stock back.

Any error rolls everything back.

The modules follow the source files:

- `OrderModels` (models.dfy) covers orders/models.py. It holds the `Order` and `OrderItem` records and the bounds of the decimal columns. It also holds a `Store` class whose fields are the `products`, `orders` and `order_items` tables. `Store.Valid()` states unique order keys, in-range decimal amounts and intact foreign keys. The cascade deletes are methods of the store.
- `OrderSerializers` (serializers.py) covers orders/serializers.py. It holds the per-line field validation (`ValidateLines`) and the transaction as a function of the stored catalog (`Transaction`). It also holds the transaction as imperative code against the store: `Create`, with its three loops `CheckLines`, `BuildItems` and `BulkUpdate`. Each loop is proved equal to the part of `Transaction` it computes.
- `TransactionProperties` (transaction_properties.dfy) holds what the transaction promises, proved about `Transaction`. These cover errors, totals, items and stock, including the quirks below.
- `OrderViews` (views.py) covers orders/views.py. It holds serializer selection and who sees which orders in what order. It also holds single-order lookup through the same view, and the create action, which binds the new order to the requester.
- `Seqs` and `Wrappers` are helpers: an order-preserving filter, and the Option and Result types.

Money is integer cents, so every sum is exact. Stock is a `nat`. Order and product keys (UUIDs in the source), the user, and `created_at` are plain values. The caller supplies a fresh key and the clock reading to `Create`.

Behaviour of the code that the model reproduces as written:

- **Each line is checked against the stored stock.** The decrements are written only at the end, so earlier lines of the same request do not count. Two lines for one product are each checked against the full stock (`CheckedAgainstStoredStock`). All copies go to `bulk_update` in one batch, a single UPDATE whose CASE takes the first copy of each product, so the first line's copy is what gets written (`FirstLineWins`). So five in stock and two lines of three succeed, leaving two (`DuplicateLinesOversell`); a design that checks cumulative demand would refuse that request. Lines of three and then one also succeed and leave two, although four units were sold (`DuplicateLinesFirstCopyKept`). The model follows the code.
- **An empty request is accepted.** The list serializer allows an empty list, and the result is an order with total 0 and no items (`EmptyRequestCreatesEmptyOrder`). A design that rejects empty requests would differ here; the model follows the code.
- **Items come from a second read of each product.** Nothing is written before the final stock update, so that read sees the same stored rows as the first loop. The model passes both loops the same catalog.
- **The Order model declares no `user` field**, yet the serializer creates orders with `user=` and the view filters on it. The model's `Order` carries that user as `owner`.
- **A missing product raises a validation error**, so the response is 400, not 404. Field validation already rejects unknown ids, so the in-transaction lookup cannot fail in a sequential run (`ValidatedRequestFindsProducts`).
- **A decimal value too large for `DecimalField(max_digits=10, decimal_places=2)` aborts the insert** on PostgreSQL, the configured database, and with it the transaction. The model's `DecimalOverflow` error covers this for the order total and for the item prices.

## Model

| member | source | states |
|---|---|---|
| `OrderModels.DecimalRange` | orders/models.py:15 | a two-place decimal with at most 10 digits holds exactly the cent amounts from −9 999 999 999 to 9 999 999 999 |
| `OrderModels.Store.DeleteOrder` | orders/models.py:22 | deleting an order removes it and every item that refers to it, keeps the other orders and items in order, leaves products alone, and keeps the store valid |
| `OrderModels.Store.DeleteProduct` | orders/models.py:23 | deleting a product removes the items that refer to it; orders and their totals stay, and the store stays valid |
| `OrderSerializers.ValidateLines` | orders/serializers.py:35-47 | a request passes field validation iff every line has quantity ≥ 1 and names an existing product; every error names a line that really has that fault, and every fault of every line is reported |
| `OrderSerializers.FirstFailure` | orders/serializers.py:67-76 | the first loop raises no error iff every line names an existing product whose stored stock covers the line's quantity; its error is never an overflow |
| `OrderSerializers.ItemsFor` | orders/serializers.py:85-95 | one item per line, in request order, each for the new order, with the line's product and quantity and the product's stored price |
| `OrderSerializers.Transaction` | orders/serializers.py:59-101 | the transaction fails with a line error iff some line is unavailable; on success the order has the given key, owner and timestamp, its total and item prices fit their columns, there is one item per line, and the catalog keeps its keys |
| `OrderSerializers.CheckLines` | orders/serializers.py:67-81 | the loop returns the first failing line's error, or else the exact total and the decremented copies in request order |
| `OrderSerializers.BuildItems` | orders/serializers.py:85-97 | the loop builds exactly the items of `ItemsFor` and reports whether every price fits its decimal column |
| `OrderSerializers.BulkUpdate` | orders/serializers.py:99 | each product named by a copy gets the first copy for it in list order; later copies of the same product are ignored, and other products are kept |
| `OrderSerializers.Create` | orders/serializers.py:59-101 | on failure the store is unchanged and the error is returned; on success exactly one order is appended, its items are appended, the catalog becomes the updated one, and the store stays valid |
| `OrderSerializers.FailureIsFirst` | orders/serializers.py:67-76 | when every line before line i passes and line i fails, the transaction raises line i's error |
| `TransactionProperties.FirstFailureIsALine` | orders/serializers.py:67-76 | a raised error is that of some line all of whose predecessors pass |
| `TransactionProperties.FailureExplained` | orders/serializers.py:68-76 | "not found" names a product that some line asks for and the catalog lacks; "insufficient stock" names a stored product, reports its stored stock, and some line asks for more; an overflow happens only when every line is available |
| `TransactionProperties.ValidatedRequestFindsProducts` | orders/serializers.py:40-46 | a request that passed field validation has positive quantities and never fails for a missing product |
| `TransactionProperties.CheckedAgainstStoredStock` | orders/serializers.py:69-81 | a request succeeds iff each line on its own is covered by the stored stock and the total and prices fit; earlier lines for the same product are not subtracted |
| `TransactionProperties.LineTotalIsItemsTotal` | orders/serializers.py:78-93 | the running total equals the sum of price × quantity over the created items |
| `TransactionProperties.CreatedOrderMatchesItems` | orders/serializers.py:83-97 | on success the order has the given key, owner and time, its total is the sum over its items of captured price × quantity, and item i carries line i's product and quantity and the product's stored price |
| `TransactionProperties.EmptyRequestCreatesEmptyOrder` | orders/serializers.py:64-99 | an empty request creates an order with total 0 and no items, and leaves the catalog unchanged |
| `TransactionProperties.FirstLineWins` | orders/serializers.py:80-99 | a product's persisted stock is its stored stock minus the quantity of the first line naming it, and its price is kept |
| `TransactionProperties.UnreferencedUnchanged` | orders/serializers.py:99 | a product no line names keeps its row |
| `TransactionProperties.DistinctLinesDecrementStock` | orders/serializers.py:73-99 | with distinct products, success takes each line's quantity off its product's stock, which stays ≥ 0; prices are kept; all other products are unchanged; no product is added or removed |
| `TransactionProperties.DuplicateLinesOversell` | orders/serializers.py:69-99 | with five in stock, two lines of three succeed: six units are ordered, the total is 60.00, and two remain in stock |
| `TransactionProperties.DuplicateLinesFirstCopyKept` | orders/serializers.py:69-99 | with five in stock, lines of three and then one succeed: four units are ordered, the total is 40.00, and the stock written is two, the first line's copy |
| `TransactionProperties.WorkedExampleAccepted` | orders/serializers.py:59-101 | A (10.00, stock 5) and B (3.50, stock 2): ordering 2 A + 1 B totals 23.50 and leaves stocks 3 and 1 |
| `TransactionProperties.WorkedExampleRefused` | orders/serializers.py:73-76 | with the same catalog, ordering 3 B is refused as insufficient stock with 2 available |
| `OrderViews.SerializerFor` | orders/views.py:15-19 | the create serializer is chosen iff the action is "create"; the read serializer for every other action |
| `OrderViews.SortNewestFirst` | orders/views.py:27 | the result is sorted by `created_at`, newest first, and is a permutation of the input |
| `OrderViews.Queryset` | orders/views.py:21-27 | a regular user sees exactly the orders whose owner is that user; a superuser sees every order, each as often as stored, newest first |
| `OrderViews.OwnListKeepsStoreOrder` | orders/views.py:24-25 | a regular user's list is not re-sorted: it distributes over concatenation of the stored orders and returns a list of the user's own orders unchanged |
| `OrderViews.NewOrderListedForItsOwner` | orders/views.py:24-25 | an appended order shows up at the end of its owner's list and in no other regular user's list |
| `OrderViews.Retrieve` | orders/views.py:21-27 | lookup by key finds an order only if it exists and is visible to the requester; it finds nothing iff every order with that key belongs to someone else and the requester is not a superuser |
| `OrderViews.OthersOrderLooksMissing` | orders/views.py:24-25 | for a regular user, another user's order and a key that does not exist get the same answer: not found |
| `OrderViews.CreateAction` | orders/views.py:29-30 | invalid requests get their field errors and change nothing; a placed order is owned by the requester and is the one order appended; a refused transaction changes nothing and is never "not found" |

## Left out

- Concurrency and row locking. The code takes no row locks, and each request is modelled as one sequential atomic step. Concurrent requests against the same stock are not modelled.
- UUID generation and the clock. The new order's key and `created_at` are parameters. `Create` requires the key to be unused, which stands for the uniqueness of `uuid4`.
- The read serializers, nested product output, `prefetch_related`, authentication, permissions and pagination. They are framework plumbing.
- The update and partial-update actions that `ModelViewSet` also exposes for orders. They are not part of the order logic. Without them no modelled operation changes an existing order, so the non-editable `id` and the once-set `created_at` hold by construction.
- The `Order` columns `customer_name`, `email`, `quantity` and `products`, and `Order.__str__`. The order logic never sets or reads them.
- The defaults `total_price = 0` and `OrderItem.quantity = 1`. `create` always passes both values, so the defaults never apply. The starting total of 0 is what `EmptyRequestCreatesEmptyOrder` shows.
- The 32-bit range of the integer quantity column. Products' own model (products/models.py) is not part of this model, and a stored stock value bounds every accepted quantity.
- Parsing of `product_id` as a UUID and of `quantity` as an integer. Lines arrive already parsed.
- Error message text. Errors are kinds with the product and, for stock, the available count.
- Order of tied `created_at` values in the superuser's list. The database leaves it unspecified; the model's sort is stable.
- Order of a regular user's list. SQL leaves an unordered query's order unspecified; the model keeps the order in which the store holds the orders.
