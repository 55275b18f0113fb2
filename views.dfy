/** The order endpoints (orders/views.py): which serializer an action uses,
    which orders a requester sees and in what order, single-order lookup
    through that same view, and order creation bound to the requester. */
module OrderViews {
  import opened Wrappers
  import opened Seqs
  import opened OrderModels
  import opened OrderSerializers
  import TransactionProperties

  /** The authenticated requester. */
  datatype User = User(id: UserId, isSuperuser: bool)

  datatype SerializerClass = OrderCreateSerializer | OrderReadSerializer

  /** `get_serializer_class`: the create action writes through the create
      serializer; every other action reads through the read serializer. */
  function SerializerFor(action: string): (r: SerializerClass)
    ensures r == OrderCreateSerializer <==> action == "create"
    ensures r == OrderReadSerializer <==> action != "create"
  {
    if action == "create" then OrderCreateSerializer else OrderReadSerializer
  }

  // ---------------------------------------------------------------------
  // Visibility and ordering
  // ---------------------------------------------------------------------

  /** `filter(user=...)`: the orders of one owner, in store order. */
  function OwnedBy(orders: seq<Order>, owner: UserId): seq<Order>
  {
    Filter(orders, (o: Order) => o.owner == owner)
  }

  /** Sorted by `created_at`, newest first. */
  predicate NewestFirst(orders: seq<Order>)
  {
    forall i, j | 0 <= i < j < |orders| :: orders[i].createdAt >= orders[j].createdAt
  }

  /** Puts `o` into a newest-first list, before the orders no newer than it. */
  function Insert(o: Order, orders: seq<Order>): (r: seq<Order>)
    requires NewestFirst(orders)
    ensures NewestFirst(r)
    ensures multiset(r) == multiset(orders) + multiset{o}
    ensures forall x | x in r :: x == o || x in orders
    decreases |orders|
  {
    if orders == [] || o.createdAt >= orders[0].createdAt then [o] + orders
    else
      var rest := Insert(o, orders[1..]);
      assert orders == [orders[0]] + orders[1..];
      assert forall x | x in rest :: x.createdAt <= orders[0].createdAt;
      [orders[0]] + rest
  }

  /** `order_by("-created_at")`. */
  function SortNewestFirst(orders: seq<Order>): (r: seq<Order>)
    ensures NewestFirst(r)
    ensures multiset(r) == multiset(orders)
    decreases |orders|
  {
    if orders == [] then []
    else
      assert orders == [orders[0]] + orders[1..];
      Insert(orders[0], SortNewestFirst(orders[1..]))
  }

  /** `get_queryset`: a regular user sees exactly their own orders; a
      superuser sees every order, newest first. */
  function Queryset(orders: seq<Order>, user: User): (r: seq<Order>)
    ensures forall o | o in r :: o in orders && (user.isSuperuser || o.owner == user.id)
    ensures forall o | o in orders && (user.isSuperuser || o.owner == user.id) :: o in r
    ensures user.isSuperuser ==> multiset(r) == multiset(orders) && NewestFirst(r)
  {
    if !user.isSuperuser then OwnedBy(orders, user.id)
    else
      var sorted := SortNewestFirst(orders);
      assert forall o | o in sorted :: o in multiset(orders);
      assert forall o | o in orders :: o in multiset(sorted);
      sorted
  }

  /** A regular user's list is not re-sorted: it keeps the order in which
      the store holds the orders, so a list built from two parts is the two
      lists one after the other, and a list of the user's own orders comes
      back as it is. */
  lemma OwnListKeepsStoreOrder(a: seq<Order>, b: seq<Order>, user: User)
    requires !user.isSuperuser
    ensures Queryset(a + b, user) == Queryset(a, user) + Queryset(b, user)
    ensures (forall i | 0 <= i < |a| :: a[i].owner == user.id) ==> Queryset(a, user) == a
  {
    FilterConcat(a, b, (o: Order) => o.owner == user.id);
    if forall i | 0 <= i < |a| :: a[i].owner == user.id {
      FilterKeepsAll(a, (o: Order) => o.owner == user.id);
    }
  }

  /** An order just created by a regular user appears at the end of that
      user's list and in no other regular user's list. */
  lemma NewOrderListedForItsOwner(orders: seq<Order>, order: Order, user: User)
    requires !user.isSuperuser
    ensures order.owner == user.id ==> Queryset(orders + [order], user) == Queryset(orders, user) + [order]
    ensures order.owner != user.id ==> Queryset(orders + [order], user) == Queryset(orders, user)
  {
    OwnListKeepsStoreOrder(orders, [order], user);
    assert Filter([order], (o: Order) => o.owner == user.id) == (if order.owner == user.id then [order] else []) + Filter([], (o: Order) => o.owner == user.id);
  }

  /** The first order with key `id` in a list. */
  function FindById(orders: seq<Order>, id: OrderId): (r: Option<Order>)
    ensures r.Some? ==> r.value in orders && r.value.id == id
    ensures r.None? <==> forall o | o in orders :: o.id != id
    decreases |orders|
  {
    if orders == [] then None
    else if orders[0].id == id then Some(orders[0])
    else
      assert forall o | o in orders :: o == orders[0] || o in orders[1..];
      FindById(orders[1..], id)
  }

  /** `retrieve`: the lookup goes through `get_queryset`, so an order that
      exists but belongs to someone else is simply not found. */
  function Retrieve(orders: seq<Order>, user: User, id: OrderId): (r: Option<Order>)
    ensures r.Some? ==> r.value in orders && r.value.id == id && (user.isSuperuser || r.value.owner == user.id)
    ensures r.None? <==> forall o | o in orders && o.id == id :: !user.isSuperuser && o.owner != user.id
  {
    FindById(Queryset(orders, user), id)
  }

  /** A regular user asking for another user's order gets the same answer as
      for a key that does not exist. */
  lemma OthersOrderLooksMissing(orders: seq<Order>, user: User, other: Order, missing: OrderId)
    requires UniqueIds(orders)
    requires !user.isSuperuser
    requires other in orders && other.owner != user.id
    requires missing !in IdsOf(orders)
    ensures Retrieve(orders, user, other.id) == Retrieve(orders, user, missing) == None
  {
    forall o | o in orders && o.id == other.id
      ensures o == other
    {
      var i :| 0 <= i < |orders| && orders[i] == o;
      var j :| 0 <= j < |orders| && orders[j] == other;
      assert i == j;
    }
  }

  // ---------------------------------------------------------------------
  // Creating an order through the endpoint
  // ---------------------------------------------------------------------

  /** The answer to a create request: the new order, the field errors of
      the request, or the error the transaction raised. */
  datatype CreateResponse =
    | Placed(order: Order)
    | Invalid(errors: seq<LineError>)
    | Refused(error: CreateError)

  /** The create action: the request is validated line by line; if valid,
      `perform_create` saves it with the requester as its user, which runs
      the transaction. Only a placed order changes the store, and its owner
      is the requester. */
  method CreateAction(store: Store, requester: User, lines: seq<Line>, id: OrderId, now: Timestamp)
    returns (resp: CreateResponse)
    requires store.Valid()
    requires id !in IdsOf(store.orders)
    modifies store
    ensures store.Valid()
    ensures resp.Invalid? <==> ValidateLines(old(store.products), lines) != []
    ensures resp.Invalid? ==> resp.errors == ValidateLines(old(store.products), lines)
    ensures resp.Refused? ==> !resp.error.ProductNotFound?
    ensures !resp.Placed? ==> unchanged(store)
    ensures resp.Placed? ==>
      && resp.order.owner == requester.id
      && resp.order.id == id
      && resp.order.createdAt == now
      && store.orders == old(store.orders) + [resp.order]
    ensures !resp.Invalid? ==>
      match Transaction(old(store.products), requester.id, lines, id, now)
      case Failure(e) => resp == Refused(e)
      case Success(c) =>
        && resp == Placed(c.order)
        && store.items == old(store.items) + c.items
        && store.products == c.products
  {
    var errors := ValidateLines(store.products, lines);
    if errors != [] {
      return Invalid(errors);
    }
    ghost var products := store.products;
    assert QuantitiesValid(lines);
    TransactionProperties.ValidatedRequestFindsProducts(products, requester.id, lines, id, now);
    var r := Create(store, requester.id, lines, id, now);
    match r {
      case Success(o) => resp := Placed(o);
      case Failure(e) => resp := Refused(e);
    }
  }
}
