/** The persistent entities. Identities are the keys of the repositories
    (see module Repositories), so the records below hold everything else.
    Money is a `BigDecimal` of scale 2, held here as a whole number of cents;
    timestamps are not modelled. */
module Entities {
  import opened Errors
  import opened JavaLang
  import opened Roles

  datatype OrderStatus = CREATED | CONFIRMED | CANCELLED

  /** `password` holds the encoder's output. */
  datatype User = User(name: string, email: string, password: string, role: Role)

  datatype Category = Category(name: string, description: Option<string>)

  /** Fields as the builder in ProductService.createProduct sets them. */
  datatype Product = Product(
    name: string,
    description: Option<string>,
    price: int,
    stock: Int32,
    categoryId: int)

  /** A line of an order: the product it refers to, the quantity and the
      unit price copied from the product when the order was placed. The
      order owning the line is the `Order` whose `items` hold it. */
  datatype OrderItem = OrderItem(productId: int, quantity: Int32, price: int)

  /** Fields as the builder in OrderService.createOrder sets them. */
  datatype Order = Order(
    userId: int,
    items: seq<OrderItem>,
    totalAmount: int,
    status: OrderStatus)

  /** `OrderItem.getLineTotal`: the stored unit price times the quantity,
      exact. It reads nothing but the line itself. */
  function LineTotal(item: OrderItem): (amount: int)
    ensures item.price >= 0 && item.quantity >= 0 ==> amount >= 0
    ensures item.quantity > 0 ==> (amount > 0 <==> item.price > 0)
    ensures item.quantity == 1 ==> amount == item.price
  {
    item.price * item.quantity
  }

  /** The stream `map(price * quantity).reduce(ZERO, add)` over the lines, in
      their order. */
  function Total(items: seq<OrderItem>): (total: int)
    ensures (forall k :: 0 <= k < |items| ==> items[k].price >= 0 && items[k].quantity >= 0) ==> total >= 0
    ensures |items| == 1 ==> total == LineTotal(items[0])
  {
    if items == [] then 0
    else Total(items[..|items| - 1]) + LineTotal(items[|items| - 1])
  }

  /** Adding one line at the front changes the total by that line's amount:
      the total does not depend on where a line sits in the fold. */
  lemma {:induction false} TotalCons(item: OrderItem, items: seq<OrderItem>)
    ensures Total([item] + items) == LineTotal(item) + Total(items)
  {
    if items != [] {
      var last := |items| - 1;
      assert ([item] + items)[..last + 1] == [item] + items[..last];
      TotalCons(item, items[..last]);
    }
  }

  /** Summing in a different order gives the same total. */
  lemma {:induction false} TotalPermutation(a: seq<OrderItem>, b: seq<OrderItem>)
    requires multiset(a) == multiset(b)
    ensures Total(a) == Total(b)
  {
    if a != [] {
      var x := a[|a| - 1];
      assert x in multiset(b);
      var k :| 0 <= k < |b| && b[k] == x;
      var rest := b[..k] + b[k + 1..];
      assert b == b[..k] + [x] + b[k + 1..];
      assert a == a[..|a| - 1] + [x];
      assert multiset(b) == multiset(b[..k]) + multiset{x} + multiset(b[k + 1..]);
      assert multiset(a) == multiset(a[..|a| - 1]) + multiset{x};
      assert multiset(rest) == multiset(b[..k]) + multiset(b[k + 1..]);
      assert multiset(rest) == multiset(b) - multiset{x};
      assert multiset(a[..|a| - 1]) == multiset(a) - multiset{x};
      TotalPermutation(a[..|a| - 1], rest);
      TotalSplit(b[..k], b[k + 1..], x);
    }
  }

  lemma {:induction false} TotalSplit(p: seq<OrderItem>, q: seq<OrderItem>, x: OrderItem)
    ensures Total(p + [x] + q) == Total(p + q) + LineTotal(x)
  {
    if q == [] {
      assert p + [x] + q == p + [x];
      assert (p + [x])[..|p|] == p;
      assert p + q == p;
    } else {
      var last := q[|q| - 1];
      var q' := q[..|q| - 1];
      assert p + [x] + q == (p + [x] + q') + [last];
      assert p + q == (p + q') + [last];
      TotalSplit(p, q', x);
    }
  }
}
