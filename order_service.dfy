/** OrderService: order placement against the stock ledger, the
    administrative status update, and the three ways of reading orders. */
module OrderService {
  import opened Errors
  import opened JavaLang
  import opened Roles
  import opened Entities
  import opened Validation
  import opened Authorization
  import opened Repositories
  import opened UserService
  import opened ProductService

  /** OrderItemRequestDto; the quantity may be null. */
  datatype ItemRequest = ItemRequest(productId: int, quantity: Option<Int32>)

  /** OrderItemResponseDto. The product name is read from the product as it
      is now; `None` stands for a product no longer in the table. */
  datatype OrderItemView = OrderItemView(productId: int, productName: Option<string>, quantity: Int32, price: int, lineTotal: int)

  /** OrderResponseDto, without the timestamps. */
  datatype OrderView = OrderView(
    id: int,
    userId: int,
    userEmail: Option<string>,
    totalAmount: int,
    status: OrderStatus,
    items: seq<OrderItemView>)

  // ---------------------------------------------------------------- views

  function MapToItemView(item: OrderItem, products: map<int, Product>): (v: OrderItemView)
    ensures v.productId == item.productId && v.quantity == item.quantity && v.price == item.price
    ensures v.lineTotal == LineTotal(item)
    ensures v.productName.Some? <==> item.productId in products
    ensures v.productName.Some? ==> v.productName.value == products[item.productId].name
  {
    OrderItemView(item.productId,
                  if item.productId in products then Some(products[item.productId].name) else None,
                  item.quantity, item.price, LineTotal(item))
  }

  /** `mapToOrderResponseDto`: the stream map over the lines, in order. */
  function MapToOrderView(id: int, order: Order, users: map<int, User>, products: map<int, Product>): (v: OrderView)
    ensures v.id == id && v.userId == order.userId && v.totalAmount == order.totalAmount && v.status == order.status
    ensures v.userEmail.Some? <==> order.userId in users
    ensures v.userEmail.Some? ==> v.userEmail.value == users[order.userId].email
    ensures |v.items| == |order.items|
    ensures forall k :: 0 <= k < |v.items| ==> v.items[k] == MapToItemView(order.items[k], products)
  {
    OrderView(id, order.userId,
              if order.userId in users then Some(users[order.userId].email) else None,
              order.totalAmount, order.status,
              seq(|order.items|, k requires 0 <= k < |order.items| => MapToItemView(order.items[k], products)))
  }

  function SumLineTotals(views: seq<OrderItemView>): int {
    if views == [] then 0 else SumLineTotals(views[..|views| - 1]) + views[|views| - 1].lineTotal
  }

  lemma {:induction false} SumLineTotalsOfViews(items: seq<OrderItem>, views: seq<OrderItemView>, products: map<int, Product>)
    requires |views| == |items|
    requires forall k :: 0 <= k < |items| ==> views[k] == MapToItemView(items[k], products)
    ensures SumLineTotals(views) == Total(items)
  {
    if items != [] {
      SumLineTotalsOfViews(items[..|items| - 1], views[..|views| - 1], products);
    }
  }

  /** In the view of a stored order, the total is the sum of the line totals
      shown beside it. */
  lemma ViewTotalIsSumOfLines(id: int, order: Order, users: map<int, User>, products: map<int, Product>)
    requires order.totalAmount == Total(order.items)
    ensures MapToOrderView(id, order, users, products).totalAmount == SumLineTotals(MapToOrderView(id, order, users, products).items)
  {
    var v := MapToOrderView(id, order, users, products);
    SumLineTotalsOfViews(order.items, v.items, products);
  }

  /** The prices, line totals and total shown for an order come from the
      order alone: they are the same whatever the products' current prices. */
  lemma ViewIgnoresCurrentPrices(id: int, order: Order, users: map<int, User>, before: map<int, Product>, after: map<int, Product>)
    ensures var v, w := MapToOrderView(id, order, users, before), MapToOrderView(id, order, users, after);
            && v.totalAmount == w.totalAmount && |v.items| == |w.items|
            && forall k :: 0 <= k < |v.items| ==>
                 v.items[k].price == w.items[k].price && v.items[k].lineTotal == w.items[k].lineTotal
                 && v.items[k].quantity == w.items[k].quantity
  {
  }

  // ---------------------------------------------------------------- pricing

  /** One pass of the loop in `createOrder`: quantity, then product, then the
      stock pre-check, then the price snapshot. */
  function PriceLine(products: map<int, Product>, item: ItemRequest): (r: Result<OrderItem>)
    ensures ValidatePositive(item.quantity, "quantity").Fail? ==> r == Err(BadRequest("quantity"))
    ensures ValidatePositive(item.quantity, "quantity").Pass? && item.productId !in products ==> r == Err(NotFound("Product"))
    ensures (ValidatePositive(item.quantity, "quantity").Pass? && item.productId in products
             && products[item.productId].stock < item.quantity.value) ==> r == Err(BadRequest("stock"))
    ensures r.Ok? <==> item.quantity.Some? && item.quantity.value > 0 && item.productId in products
                       && products[item.productId].stock >= item.quantity.value
    ensures r.Ok? ==> r.value == OrderItem(item.productId, item.quantity.value, products[item.productId].price)
  {
    var quantityCheck := ValidatePositive(item.quantity, "quantity");
    if quantityCheck.Fail? then Err(quantityCheck.error)
    else match GetProductEntity(products, item.productId)
      case Err(e) => Err(e)
      case Ok(product) =>
        if product.stock < item.quantity.value then Err(BadRequest("stock"))
        else Ok(OrderItem(item.productId, item.quantity.value, product.price))
  }

  /** The lines the loop builds, or the error of the first line that fails. */
  function PricedLines(products: map<int, Product>, items: seq<ItemRequest>): (r: Result<seq<OrderItem>>)
    ensures r.Ok? <==> forall k :: 0 <= k < |items| ==> PriceLine(products, items[k]).Ok?
    ensures r.Ok? ==> |r.value| == |items| && forall k :: 0 <= k < |items| ==> PriceLine(products, items[k]) == Ok(r.value[k])
  {
    if items == [] then Ok([])
    else
      var last := |items| - 1;
      assert forall k :: 0 <= k < last ==> items[..last][k] == items[k];
      match PricedLines(products, items[..last])
      case Err(e) => Err(e)
      case Ok(lines) =>
        match PriceLine(products, items[last])
        case Err(e) => Err(e)
        case Ok(line) => Ok(lines + [line])
  }

  /** Lines are checked in input order: the first failing line decides the
      error. */
  lemma {:induction false} PricedLinesFirstError(products: map<int, Product>, items: seq<ItemRequest>, k: int)
    requires 0 <= k < |items|
    requires PriceLine(products, items[k]).Err?
    requires forall j :: 0 <= j < k ==> PriceLine(products, items[j]).Ok?
    ensures PricedLines(products, items) == Err(PriceLine(products, items[k]).error)
  {
    var last := |items| - 1;
    assert forall j :: 0 <= j < last ==> items[..last][j] == items[j];
    if k < last {
      PricedLinesFirstError(products, items[..last], k);
    }
  }

  /** A failing prefix fails the whole list with the same error. */
  lemma {:induction false} PricedLinesPrefixError(products: map<int, Product>, items: seq<ItemRequest>, i: int)
    requires 0 <= i <= |items|
    requires PricedLines(products, items[..i]).Err?
    ensures PricedLines(products, items) == PricedLines(products, items[..i])
  {
    if i < |items| {
      var last := |items| - 1;
      assert items[..last][..i] == items[..i];
      PricedLinesPrefixError(products, items[..last], i);
    } else {
      assert items[..i] == items;
    }
  }

  // ---------------------------------------------------------------- decrements

  /** The quantity the lines ask of one product. */
  function Demand(lines: seq<OrderItem>, productId: int): int {
    if lines == [] then 0
    else
      var last := lines[|lines| - 1];
      Demand(lines[..|lines| - 1], productId) + (if last.productId == productId then last.quantity else 0)
  }

  /** The `forEach(reduceStock)` after the order is saved: one decrement per
      line, in line order, stopping at the first that throws. */
  function StockReductions(products: map<int, Product>, lines: seq<OrderItem>): (r: Result<map<int, Product>>)
    ensures r.Ok? ==> r.value.Keys == products.Keys
    ensures r.Err? ==> r.error == NotFound("Product") || r.error == BadRequest("stock")
  {
    if lines == [] then Ok(products)
    else
      var last := lines[|lines| - 1];
      match StockReductions(products, lines[..|lines| - 1])
      case Err(e) => Err(e)
      case Ok(after) => StockReduction(after, last.productId, last.quantity)
  }

  /** A failing prefix of decrements fails the whole run with the same error. */
  lemma {:induction false} StockReductionsPrefixError(products: map<int, Product>, lines: seq<OrderItem>, j: int)
    requires 0 <= j <= |lines|
    requires StockReductions(products, lines[..j]).Err?
    ensures StockReductions(products, lines) == StockReductions(products, lines[..j])
  {
    if j < |lines| {
      var last := |lines| - 1;
      assert lines[..last][..j] == lines[..j];
      StockReductionsPrefixError(products, lines[..last], j);
    } else {
      assert lines[..j] == lines;
    }
  }

  /** After a successful run, each product's stock has fallen by its demand
      and nothing else about any product has changed. */
  lemma {:induction false} StockReductionsEffect(products: map<int, Product>, lines: seq<OrderItem>)
    requires forall k :: 0 <= k < |lines| ==> lines[k].quantity >= 0
    requires StockReductions(products, lines).Ok?
    ensures var after := StockReductions(products, lines).value;
            && after.Keys == products.Keys
            && forall id :: id in products ==>
                 after[id].stock == products[id].stock - Demand(lines, id)
                 && after[id] == products[id].(stock := after[id].stock)
  {
    if lines != [] {
      var last := |lines| - 1;
      assert forall k :: 0 <= k < last ==> lines[..last][k] == lines[k];
      StockReductionsEffect(products, lines[..last]);
    }
  }

  /** Lines with non-negative quantities ask a non-negative amount of each
      product. */
  lemma {:induction false} DemandNonNegative(lines: seq<OrderItem>, productId: int)
    requires forall k :: 0 <= k < |lines| ==> lines[k].quantity >= 0
    ensures Demand(lines, productId) >= 0
  {
    if lines != [] {
      var last := |lines| - 1;
      assert forall k :: 0 <= k < last ==> lines[..last][k] == lines[k];
      DemandNonNegative(lines[..last], productId);
    }
  }

  /** The decrements all succeed exactly when, for every product named by a
      line, the product exists and its stock covers the total quantity the
      lines ask of it. */
  lemma {:induction false} StockReductionsSucceedIff(products: map<int, Product>, lines: seq<OrderItem>)
    requires forall k :: 0 <= k < |lines| ==> lines[k].quantity >= 0
    ensures StockReductions(products, lines).Ok? <==>
            forall k :: 0 <= k < |lines| ==>
              lines[k].productId in products && Demand(lines, lines[k].productId) <= products[lines[k].productId].stock
  {
    if lines != [] {
      var last := |lines| - 1;
      var prefix := lines[..last];
      var l := lines[last];
      assert forall k :: 0 <= k < last ==> prefix[k] == lines[k];
      StockReductionsSucceedIff(products, prefix);
      if StockReductions(products, prefix).Ok? {
        StockReductionsEffect(products, prefix);
      }
      forall id ensures Demand(lines, id) >= Demand(prefix, id) {
        assert Demand(lines, id) == Demand(prefix, id) + (if l.productId == id then l.quantity else 0);
      }
      if StockReductions(products, lines).Ok? {
        forall k | 0 <= k < |lines|
          ensures lines[k].productId in products && Demand(lines, lines[k].productId) <= products[lines[k].productId].stock
        {
          if k < last && lines[k].productId != l.productId {
            assert Demand(lines, lines[k].productId) == Demand(prefix, lines[k].productId);
          }
        }
      }
    }
  }

  /** With one line per product, the per-line pre-checks already guarantee
      that every decrement succeeds. */
  lemma {:induction false} DistinctProductsSucceed(products: map<int, Product>, lines: seq<OrderItem>)
    requires forall k :: 0 <= k < |lines| ==>
               lines[k].quantity >= 0 && lines[k].productId in products
               && products[lines[k].productId].stock >= lines[k].quantity
    requires forall j, k :: 0 <= j < k < |lines| ==> lines[j].productId != lines[k].productId
    ensures StockReductions(products, lines).Ok?
  {
    forall k | 0 <= k < |lines| ensures Demand(lines, lines[k].productId) == lines[k].quantity {
      DemandOfDistinct(lines, k);
    }
    StockReductionsSucceedIff(products, lines);
  }

  lemma {:induction false} DemandOfDistinct(lines: seq<OrderItem>, k: int)
    requires 0 <= k < |lines|
    requires forall i, j :: 0 <= i < j < |lines| ==> lines[i].productId != lines[j].productId
    ensures Demand(lines, lines[k].productId) == lines[k].quantity
  {
    var last := |lines| - 1;
    var prefix := lines[..last];
    assert forall i :: 0 <= i < last ==> prefix[i] == lines[i];
    if k < last {
      DemandOfDistinct(prefix, k);
    } else {
      DemandAbsent(prefix, lines[k].productId);
    }
  }

  lemma {:induction false} DemandAbsent(lines: seq<OrderItem>, productId: int)
    requires forall i :: 0 <= i < |lines| ==> lines[i].productId != productId
    ensures Demand(lines, productId) == 0
  {
    if lines != [] {
      var last := |lines| - 1;
      assert forall i :: 0 <= i < last ==> lines[..last][i] == lines[i];
      DemandAbsent(lines[..last], productId);
    }
  }

  /** Successful decrements of non-negative quantities never leave a stock
      below zero. */
  lemma {:induction false} StockReductionsKeepStocks(products: map<int, Product>, lines: seq<OrderItem>)
    requires forall k :: 0 <= k < |lines| ==> lines[k].quantity >= 0
    requires StocksNonNegative(products)
    requires StockReductions(products, lines).Ok?
    ensures StocksNonNegative(StockReductions(products, lines).value)
  {
    if lines != [] {
      var last := |lines| - 1;
      assert forall k :: 0 <= k < last ==> lines[..last][k] == lines[k];
      StockReductionsKeepStocks(products, lines[..last]);
    }
  }

  // ---------------------------------------------------------------- placement

  /** What a committed `createOrder` produces: the priced lines, their total
      and the product table after the decrements. */
  datatype Placement = Placement(items: seq<OrderItem>, total: int, products: map<int, Product>)

  /** `createOrder` as one transaction: the role check, the item-list check,
      the user lookup, the pricing loop, the total, then the decrements. An
      error anywhere leaves nothing behind. */
  function PlaceOrder(users: map<int, User>, products: map<int, Product>, userId: int, userRole: Role,
                      items: Option<seq<ItemRequest>>): (r: Result<Placement>)
    ensures userRole != CUSTOMER ==> r == Err(Forbidden)
    ensures userRole == CUSTOMER && (items.None? || items.value == []) ==> r == Err(BadRequest("items"))
    ensures (userRole == CUSTOMER && items.Some? && items.value != [] && userId !in users) ==> r == Err(NotFound("User"))
    ensures (userRole == CUSTOMER && items.Some? && items.value != [] && userId in users
             && PricedLines(products, items.value).Err?) ==> r == Err(PricedLines(products, items.value).error)
    ensures r.Ok? <==> && userRole == CUSTOMER && items.Some? && items.value != [] && userId in users
                       && PricedLines(products, items.value).Ok?
                       && StockReductions(products, PricedLines(products, items.value).value).Ok?
    ensures r.Ok? ==> var lines := PricedLines(products, items.value).value;
                      r.value == Placement(lines, Total(lines), StockReductions(products, lines).value)
    ensures (r.Err? && userRole == CUSTOMER && items.Some? && items.value != [] && userId in users
             && PricedLines(products, items.value).Ok?)
            ==> r.error == StockReductions(products, PricedLines(products, items.value).value).error
  {
    var guard := if userRole != CUSTOMER then CheckRoleAccess(userRole, [CUSTOMER]) else Pass;
    if guard.Fail? then Err(guard.error)
    else if items.None? || items.value == [] then Err(BadRequest("items"))
    else match GetUserEntityById(users, userId)
      case Err(e) => Err(e)
      case Ok(_) =>
        match PricedLines(products, items.value)
        case Err(e) => Err(e)
        case Ok(lines) =>
          match StockReductions(products, lines)
          case Err(e) => Err(e)
          case Ok(after) => Ok(Placement(lines, Total(lines), after))
  }

  /** Only a CUSTOMER may order; any other role is refused before anything
      else is looked at. */
  lemma CustomersOnly(users: map<int, User>, products: map<int, Product>, userId: int, userRole: Role,
                      items: Option<seq<ItemRequest>>)
    requires userRole != CUSTOMER
    ensures PlaceOrder(users, products, userId, userRole, items) == Err(Forbidden)
  {
  }

  /** A null or empty item list is a bad request on "items". */
  lemma EmptyOrderRejected(users: map<int, User>, products: map<int, Product>, userId: int,
                           items: Option<seq<ItemRequest>>)
    requires items.None? || items.value == []
    ensures PlaceOrder(users, products, userId, CUSTOMER, items) == Err(BadRequest("items"))
  {
  }

  /** A CUSTOMER with a non-empty list but an unknown id is told NotFound for
      the user, whatever the lines ask for: no line is looked at. */
  lemma UnknownUserRejected(users: map<int, User>, products: map<int, Product>, userId: int,
                            items: seq<ItemRequest>)
    requires userId !in users && items != []
    ensures PlaceOrder(users, products, userId, CUSTOMER, Some(items)) == Err(NotFound("User"))
    ensures forall other: map<int, Product> ::
              PlaceOrder(users, other, userId, CUSTOMER, Some(items)) == PlaceOrder(users, products, userId, CUSTOMER, Some(items))
  {
  }

  /** The first line that fails its checks decides the error. */
  lemma FirstBadLineDecides(users: map<int, User>, products: map<int, Product>, userId: int,
                            items: seq<ItemRequest>, k: int)
    requires userId in users
    requires 0 <= k < |items|
    requires PriceLine(products, items[k]).Err?
    requires forall j :: 0 <= j < k ==> PriceLine(products, items[j]).Ok?
    ensures PlaceOrder(users, products, userId, CUSTOMER, Some(items)) == Err(PriceLine(products, items[k]).error)
  {
    PricedLinesFirstError(products, items, k);
  }

  /** What a successful placement promises: the caller is a known CUSTOMER,
      the lines are the requested ones in input order with the products'
      prices at placement, the total is their sum, and every product's stock
      has fallen by exactly the quantity ordered of it, staying at or above
      zero. */
  lemma PlacementContents(users: map<int, User>, products: map<int, Product>, userId: int, userRole: Role,
                          items: Option<seq<ItemRequest>>)
    requires PlaceOrder(users, products, userId, userRole, items).Ok?
    ensures userRole == CUSTOMER && items.Some? && items.value != [] && userId in users
    ensures var p := PlaceOrder(users, products, userId, userRole, items).value;
            && |p.items| == |items.value|
            && (forall k :: 0 <= k < |p.items| ==>
                  && p.items[k].productId == items.value[k].productId
                  && items.value[k].quantity == Some(p.items[k].quantity)
                  && p.items[k].quantity > 0
                  && p.items[k].productId in products
                  && p.items[k].price == products[p.items[k].productId].price)
            && p.total == Total(p.items)
            && p.products.Keys == products.Keys
            && (forall id :: id in products ==>
                  && p.products[id].stock == products[id].stock - Demand(p.items, id)
                  && p.products[id] == products[id].(stock := p.products[id].stock))
            && (StocksNonNegative(products) ==> StocksNonNegative(p.products))
  {
    var p := PlaceOrder(users, products, userId, userRole, items).value;
    assert forall k :: 0 <= k < |p.items| ==> PriceLine(products, items.value[k]) == Ok(p.items[k]);
    StockReductionsEffect(products, p.items);
    if StocksNonNegative(products) {
      StockReductionsKeepStocks(products, p.items);
    }
  }

  /** Once every line passes its own pre-check, the order goes through
      exactly when each product's stock covers the sum of its lines. */
  lemma PlacementSucceedsIff(users: map<int, User>, products: map<int, Product>, userId: int, items: seq<ItemRequest>)
    requires userId in users && items != []
    requires PricedLines(products, items).Ok?
    ensures var lines := PricedLines(products, items).value;
            PlaceOrder(users, products, userId, CUSTOMER, Some(items)).Ok? <==>
            forall k :: 0 <= k < |lines| ==> Demand(lines, lines[k].productId) <= products[lines[k].productId].stock
  {
    var lines := PricedLines(products, items).value;
    assert forall k :: 0 <= k < |lines| ==> PriceLine(products, items[k]) == Ok(lines[k]);
    StockReductionsSucceedIff(products, lines);
  }

  /** With no product named twice, passing the pre-checks means the order
      is placed. */
  lemma DistinctProductsPlaced(users: map<int, User>, products: map<int, Product>, userId: int, items: seq<ItemRequest>)
    requires userId in users && items != []
    requires forall k :: 0 <= k < |items| ==> PriceLine(products, items[k]).Ok?
    requires forall j, k :: 0 <= j < k < |items| ==> items[j].productId != items[k].productId
    ensures PlaceOrder(users, products, userId, CUSTOMER, Some(items)).Ok?
  {
    var lines := PricedLines(products, items).value;
    assert forall k :: 0 <= k < |lines| ==> PriceLine(products, items[k]) == Ok(lines[k]);
    DistinctProductsSucceed(products, lines);
  }

  /** Two lines for one product can each pass the pre-check against the
      unchanged stock and still overdraw it together: the second decrement
      throws and the whole order is refused. */
  lemma DuplicateLinesOverdraw()
    ensures var users := map[7 := User("Ann", "ann@example.com", "hash", CUSTOMER)];
            var products := map[1 := Product("P1", None, 1000, 5, 1)];
            var items := [ItemRequest(1, Some(3)), ItemRequest(1, Some(3))];
            && PriceLine(products, items[0]).Ok? && PriceLine(products, items[1]).Ok?
            && PlaceOrder(users, products, 7, CUSTOMER, Some(items)) == Err(BadRequest("stock"))
  {
    var products := map[1 := Product("P1", None, 1000, 5, 1)];
    var items := [ItemRequest(1, Some(3)), ItemRequest(1, Some(3))];
    var lines := [OrderItem(1, 3, 1000), OrderItem(1, 3, 1000)];
    assert PriceLine(products, items[0]) == Ok(lines[0]);
    assert PriceLine(products, items[1]) == Ok(lines[1]);
    var priced := PricedLines(products, items);
    assert priced.Ok? && priced.value == lines;
    assert lines[..1] == [lines[0]];
    var once := products[1 := Product("P1", None, 1000, 2, 1)];
    assert StockReductions(products, lines[..1]) == Ok(once);
  }

  /** Product P1 with stock 5 and price 10.00: ordering 3 costs 30.00 and
      leaves 2; a second order for 3 is refused for stock. */
  lemma OrderScenario()
    ensures var users := map[1 := User("U1", "u1@example.com", "hash", CUSTOMER)];
            var products := map[1 := Product("P1", None, 1000, 5, 1)];
            var first := PlaceOrder(users, products, 1, CUSTOMER, Some([ItemRequest(1, Some(3))]));
            && first.Ok? && first.value.total == 3000 && first.value.products[1].stock == 2
            && PlaceOrder(users, first.value.products, 1, CUSTOMER, Some([ItemRequest(1, Some(3))])) == Err(BadRequest("stock"))
  {
    var products := map[1 := Product("P1", None, 1000, 5, 1)];
    var items := [ItemRequest(1, Some(3))];
    var lines := [OrderItem(1, 3, 1000)];
    assert PriceLine(products, items[0]) == Ok(lines[0]);
    var priced := PricedLines(products, items);
    assert priced.Ok? && priced.value == lines;
    assert lines[..0] == [];
    assert Total(lines) == 3000;
    var after := products[1 := Product("P1", None, 1000, 2, 1)];
    assert StockReductions(products, lines) == Ok(after);
    assert PriceLine(after, items[0]) == Err(BadRequest("stock"));
    PricedLinesFirstError(after, items, 0);
  }

  /** The pricing loop of `createOrder`: reads the products, changes nothing,
      and stops at the first line that fails. */
  method PriceItems(products: map<int, Product>, requested: seq<ItemRequest>) returns (r: Result<seq<OrderItem>>)
    ensures r == PricedLines(products, requested)
  {
    var lines: seq<OrderItem> := [];
    var i := 0;
    while i < |requested|
      invariant 0 <= i <= |requested|
      invariant PricedLines(products, requested[..i]) == Ok(lines)
    {
      assert requested[..i + 1][..i] == requested[..i];
      var line := PriceLine(products, requested[i]);
      if line.Err? {
        PricedLinesPrefixError(products, requested, i + 1);
        return Err(line.error);
      }
      lines := lines + [line.value];
      i := i + 1;
    }
    assert requested[..i] == requested;
    r := Ok(lines);
  }

  /** The `forEach(reduceStock)` of `createOrder`: one decrement per line, in
      order. A throwing decrement ends the run with the decrements before it
      still applied; undoing them is the caller's transaction. */
  method ReduceStocks(db: Store, lines: seq<OrderItem>) returns (r: Outcome)
    requires db.Valid()
    modifies db`products
    ensures db.Valid()
    ensures StockReductions(old(db.products), lines).Err? ==> r == Fail(StockReductions(old(db.products), lines).error)
    ensures StockReductions(old(db.products), lines).Ok? ==> r == Pass && db.products == StockReductions(old(db.products), lines).value
  {
    var j := 0;
    while j < |lines|
      invariant 0 <= j <= |lines|
      invariant db.Valid()
      invariant StockReductions(old(db.products), lines[..j]) == Ok(db.products)
    {
      assert lines[..j + 1][..j] == lines[..j];
      var reduced := ReduceStock(db, lines[j].productId, lines[j].quantity);
      if reduced.Fail? {
        StockReductionsPrefixError(old(db.products), lines, j + 1);
        return reduced;
      }
      j := j + 1;
    }
    assert lines[..j] == lines;
    r := Pass;
  }

  /** The part of `createOrder` before the order is saved: the role check,
      the item-list check, the user lookup and the pricing loop. It changes
      nothing, and an error here is the error of the whole placement. */
  method PrepareOrder(db: Store, items: Option<seq<ItemRequest>>, userId: int, userRole: Role)
    returns (r: Result<seq<OrderItem>>)
    ensures r.Err? ==> PlaceOrder(db.users, db.products, userId, userRole, items) == Err(r.error)
    ensures r.Ok? ==> && userRole == CUSTOMER && items.Some? && items.value != [] && userId in db.users
                      && PricedLines(db.products, items.value) == Ok(r.value)
  {
    if userRole != CUSTOMER {
      var guard := ScanRequiredRoles(userRole, [CUSTOMER]);
      if guard.Fail? {
        return Err(guard.error);
      }
    }
    if items.None? || |items.value| == 0 {
      return Err(BadRequest("items"));
    }
    var user := GetUserEntityById(db.users, userId);
    if user.Err? {
      return Err(user.error);
    }
    r := PriceItems(db.products, items.value);
  }

  /** `createOrder`. The checks and the pricing loop touch nothing; the order
      is saved, then each line's stock is reduced; if a reduction throws, the
      transaction is rolled back to the state before the call. */
  method CreateOrder(db: Store, items: Option<seq<ItemRequest>>, userId: int, userRole: Role) returns (r: Result<OrderView>)
    requires db.Valid()
    modifies db`orders, db`nextOrderId, db`products
    ensures db.Valid()
    ensures PlaceOrder(db.users, old(db.products), userId, userRole, items).Err? ==>
              && r == Err(PlaceOrder(db.users, old(db.products), userId, userRole, items).error)
              && db.products == old(db.products) && db.orders == old(db.orders) && db.nextOrderId == old(db.nextOrderId)
    ensures PlaceOrder(db.users, old(db.products), userId, userRole, items).Ok? ==>
              var p := PlaceOrder(db.users, old(db.products), userId, userRole, items).value;
              var order := Order(userId, p.items, p.total, CREATED);
              && db.products == p.products
              && db.orders == old(db.orders)[old(db.nextOrderId) := order]
              && db.nextOrderId == old(db.nextOrderId) + 1
              && r == Ok(MapToOrderView(old(db.nextOrderId), order, db.users, db.products))
  {
    var prepared := PrepareOrder(db, items, userId, userRole);
    if prepared.Err? {
      return Err(prepared.error);
    }
    var lines := prepared.value;
    var id := db.nextOrderId;
    var order := Order(userId, lines, Total(lines), CREATED);
    var productsBefore, ordersBefore := db.products, db.orders;
    SavedOrderConsistent(db.products, items.value, ordersBefore, id, order);
    db.orders := db.orders[id := order];
    db.nextOrderId := id + 1;

    var reduced := ReduceStocks(db, lines);
    if reduced.Fail? {
      assert PlaceOrder(db.users, productsBefore, userId, userRole, items) == Err(reduced.error);
      db.products, db.orders, db.nextOrderId := productsBefore, ordersBefore, id;
      return Err(reduced.error);
    }
    assert PlaceOrder(db.users, productsBefore, userId, userRole, items) == Ok(Placement(lines, Total(lines), db.products));
    r := Ok(MapToOrderView(id, order, db.users, db.products));
  }

  /** An order built from priced lines, with their total, keeps the store's
      order invariant: its total is the sum of its lines and every line has
      a positive quantity. */
  lemma SavedOrderConsistent(products: map<int, Product>, items: seq<ItemRequest>,
                             orders: map<int, Order>, id: int, order: Order)
    requires OrdersConsistent(orders)
    requires PricedLines(products, items).Ok?
    requires order.items == PricedLines(products, items).value && order.totalAmount == Total(order.items)
    ensures OrdersConsistent(orders[id := order])
  {
    var lines := order.items;
    assert forall k :: 0 <= k < |lines| ==> PriceLine(products, items[k]) == Ok(lines[k]);
  }

  // ---------------------------------------------------------------- status

  /** The order table after `updateOrderStatus`: ADMIN only, NotFound for an
      unknown id, otherwise the new status replaces the old whatever the old
      one was. */
  function StatusUpdate(orders: map<int, Order>, orderId: int, status: OrderStatus, userRole: Role)
    : (r: Result<map<int, Order>>)
    ensures userRole != ADMIN ==> r == Err(Forbidden)
    ensures userRole == ADMIN && orderId !in orders ==> r == Err(NotFound("Order"))
    ensures r.Ok? <==> userRole == ADMIN && orderId in orders
    ensures r.Ok? ==> && r.value.Keys == orders.Keys
                      && r.value[orderId] == orders[orderId].(status := status)
                      && forall id :: id in orders && id != orderId ==> r.value[id] == orders[id]
  {
    var guard := CheckAdminAccess(userRole, "update order status");
    if guard.Fail? then Err(guard.error)
    else if orderId !in orders then Err(NotFound("Order"))
    else Ok(orders[orderId := orders[orderId].(status := status)])
  }

  /** Setting the same status twice is the same as setting it once. */
  lemma StatusUpdateIdempotent(orders: map<int, Order>, orderId: int, status: OrderStatus)
    requires orderId in orders
    ensures StatusUpdate(StatusUpdate(orders, orderId, status, ADMIN).value, orderId, status, ADMIN)
            == StatusUpdate(orders, orderId, status, ADMIN)
  {
    var once := StatusUpdate(orders, orderId, status, ADMIN).value;
    assert once[orderId := once[orderId].(status := status)] == once;
  }

  /** After an update, reading the order (as its owner or as ADMIN) shows the
      new status with the lines and total it had. */
  lemma StatusUpdateThenRead(orders: map<int, Order>, users: map<int, User>, products: map<int, Product>,
                             orderId: int, status: OrderStatus, readerId: int, readerRole: Role)
    requires orderId in orders
    requires readerRole == ADMIN || readerId == orders[orderId].userId
    ensures var updated := StatusUpdate(orders, orderId, status, ADMIN).value;
            var read := GetOrderById(updated, users, products, orderId, readerId, readerRole);
            && read.Ok? && read.value.status == status
            && read.value.totalAmount == orders[orderId].totalAmount
            && read.value.items == MapToOrderView(orderId, orders[orderId], users, products).items
  {
  }

  /** `updateOrderStatus`. */
  method UpdateOrderStatus(db: Store, orderId: int, status: OrderStatus, userRole: Role) returns (r: Result<OrderView>)
    requires db.Valid()
    modifies db`orders
    ensures db.Valid()
    ensures StatusUpdate(old(db.orders), orderId, status, userRole).Err? ==>
              r == Err(StatusUpdate(old(db.orders), orderId, status, userRole).error) && db.orders == old(db.orders)
    ensures StatusUpdate(old(db.orders), orderId, status, userRole).Ok? ==>
              && db.orders == StatusUpdate(old(db.orders), orderId, status, userRole).value
              && r == Ok(MapToOrderView(orderId, db.orders[orderId], db.users, db.products))
  {
    var updated := StatusUpdate(db.orders, orderId, status, userRole);
    if updated.Err? {
      return Err(updated.error);
    }
    db.orders := updated.value;
    r := Ok(MapToOrderView(orderId, db.orders[orderId], db.users, db.products));
  }

  // ---------------------------------------------------------------- reads

  /** `getOrderById`: the lookup comes first, then the owner-or-ADMIN guard. */
  function GetOrderById(orders: map<int, Order>, users: map<int, User>, products: map<int, Product>,
                        orderId: int, userId: int, userRole: Role): (r: Result<OrderView>)
    ensures orderId !in orders ==> r == Err(NotFound("Order"))
    ensures r.Ok? <==> orderId in orders && (userId == orders[orderId].userId || userRole == ADMIN)
    ensures r.Err? && orderId in orders ==> r.error == Forbidden
    ensures r.Ok? ==> r.value == MapToOrderView(orderId, orders[orderId], users, products)
  {
    if orderId !in orders then Err(NotFound("Order"))
    else
      var guard := CheckUserOrAdmin(userRole, userId, orders[orderId].userId);
      if guard.Fail? then Err(guard.error)
      else Ok(MapToOrderView(orderId, orders[orderId], users, products))
  }

  /** The two lookups check in opposite orders: a customer probing an id
      that does not exist learns NotFound for an order but Forbidden for a
      user. */
  lemma LookupOrderContrast(orders: map<int, Order>, users: map<int, User>, products: map<int, Product>,
                            callerId: int, missingId: int)
    requires missingId !in orders && missingId !in users && callerId != missingId
    ensures GetOrderById(orders, users, products, missingId, callerId, CUSTOMER) == Err(NotFound("Order"))
    ensures GetUserById(users, callerId, CUSTOMER, missingId) == Err(Forbidden)
  {
  }

  /** The orders `getUserOrders` returns, keyed by id. */
  function OrdersOf(orders: map<int, Order>, users: map<int, User>, products: map<int, Product>, userId: int)
    : (r: map<int, OrderView>)
    ensures forall id :: id in r <==> id in orders && orders[id].userId == userId
    ensures forall id :: id in r ==> r[id] == MapToOrderView(id, orders[id], users, products)
  {
    map id | id in orders && orders[id].userId == userId :: MapToOrderView(id, orders[id], users, products)
  }

  /** `getUserOrders` as written: for a non-ADMIN the guard compares the
      requested id with itself, so it never denies. */
  function GetUserOrders(orders: map<int, Order>, users: map<int, User>, products: map<int, Product>,
                         userId: int, userRole: Role): (r: Result<map<int, OrderView>>)
    ensures r == Ok(OrdersOf(orders, users, products, userId))
  {
    var guard := if userRole != ADMIN then CheckUserOrAdmin(userRole, userId, userId) else Pass;
    match guard
    case Fail(e) => Err(e)
    case Pass => Ok(OrdersOf(orders, users, products, userId))
  }

  /** A customer signed in as user 2 who asks for user 1's orders is given
      them; the guarded listing refuses the same request. */
  lemma CustomerReadsOthersOrders()
    ensures var orders := map[10 := Order(1, [OrderItem(1, 1, 500)], 500, CREATED)];
            var got := GetUserOrders(orders, map[], map[], 1, CUSTOMER);
            && got.Ok? && 10 in got.value && orders[10].userId != 2
            && GetUserOrdersGuarded(orders, map[], map[], 1, 2, CUSTOMER) == Err(Forbidden)
  {
  }

  /** The guard the comment above `getUserOrders` describes: the acting user
      may list their own orders, ADMIN anyone's. */
  function GetUserOrdersGuarded(orders: map<int, Order>, users: map<int, User>, products: map<int, Product>,
                                targetUserId: int, actingUserId: int, userRole: Role): (r: Result<map<int, OrderView>>)
    ensures r.Ok? <==> actingUserId == targetUserId || userRole == ADMIN
    ensures r.Err? ==> r.error == Forbidden
    ensures r.Ok? ==> r.value == OrdersOf(orders, users, products, targetUserId)
  {
    var guard := CheckUserOrAdmin(userRole, actingUserId, targetUserId);
    if guard.Fail? then Err(guard.error)
    else Ok(OrdersOf(orders, users, products, targetUserId))
  }

  /** Under the guarded listing a customer only ever sees orders they own. */
  lemma GuardedListingOwnOrdersOnly(orders: map<int, Order>, users: map<int, User>, products: map<int, Product>,
                                    targetUserId: int, actingUserId: int)
    requires GetUserOrdersGuarded(orders, users, products, targetUserId, actingUserId, CUSTOMER).Ok?
    ensures forall id :: id in GetUserOrdersGuarded(orders, users, products, targetUserId, actingUserId, CUSTOMER).value
              ==> id in orders && orders[id].userId == actingUserId
  {
  }

  /** `getAllOrders`: ADMIN only; every stored order. */
  function GetAllOrders(orders: map<int, Order>, users: map<int, User>, products: map<int, Product>, userRole: Role)
    : (r: Result<map<int, OrderView>>)
    ensures r.Ok? <==> userRole == ADMIN
    ensures r.Err? ==> r.error == Forbidden
    ensures r.Ok? ==> r.value.Keys == orders.Keys
                      && forall id :: id in orders ==> r.value[id] == MapToOrderView(id, orders[id], users, products)
  {
    var guard := CheckAdminAccess(userRole, "view all orders");
    if guard.Fail? then Err(guard.error)
    else Ok(map id | id in orders :: MapToOrderView(id, orders[id], users, products))
  }
}
