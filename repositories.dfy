/** The four JPA repositories as one in-memory store: each table is a map
    from its generated identity to the entity, and each has the next
    identity the database will hand out (IDENTITY generation starts at 1). */
module Repositories {
  import opened JavaLang
  import opened Entities

  /** Every stored id was handed out before `next`. */
  ghost predicate IdsBelow<V>(m: map<int, V>, next: int) {
    1 <= next && forall id :: id in m ==> 1 <= id < next
  }

  /** No two users share an e-mail address (registration refuses a
      duplicate), so `findByEmail` has at most one row to return. */
  predicate EmailsUnique(users: map<int, User>) {
    forall i, j :: i in users && j in users && users[i].email == users[j].email ==> i == j
  }

  /** Each stored order's total is the sum of its lines, and every line has a
      positive quantity: both are fixed when the order is placed. */
  ghost predicate OrdersConsistent(orders: map<int, Order>) {
    && (forall id :: id in orders ==> orders[id].totalAmount == Total(orders[id].items))
    && (forall id, k :: id in orders && 0 <= k < |orders[id].items| ==> orders[id].items[k].quantity > 0)
  }

  /** No product has a negative stock. */
  ghost predicate StocksNonNegative(products: map<int, Product>) {
    forall id :: id in products ==> products[id].stock >= 0
  }

  class Store {
    var users: map<int, User>
    var nextUserId: int
    var categories: map<int, Category>
    var nextCategoryId: int
    var products: map<int, Product>
    var nextProductId: int
    var orders: map<int, Order>
    var nextOrderId: int

    ghost predicate Valid()
      reads this
    {
      && IdsBelow(users, nextUserId)
      && IdsBelow(categories, nextCategoryId)
      && IdsBelow(products, nextProductId)
      && IdsBelow(orders, nextOrderId)
      && EmailsUnique(users)
      && OrdersConsistent(orders)
    }

    /** An empty database. */
    constructor ()
      ensures Valid()
      ensures users == map[] && categories == map[] && products == map[] && orders == map[]
    {
      users, nextUserId := map[], 1;
      categories, nextCategoryId := map[], 1;
      products, nextProductId := map[], 1;
      orders, nextOrderId := map[], 1;
    }
  }
}
