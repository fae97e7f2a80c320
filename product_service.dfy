/** ProductService: the stock ledger (`reduceStock`) and the ADMIN-only
    catalogue operations. */
module ProductService {
  import opened Errors
  import opened JavaLang
  import opened Roles
  import opened Entities
  import opened Validation
  import opened Authorization
  import opened Repositories
  import opened CategoryService

  /** ProductRequestDto; prices in cents. */
  datatype ProductRequest = ProductRequest(
    name: Option<string>,
    description: Option<string>,
    price: Option<int>,
    stock: Option<Int32>,
    categoryId: int)

  /** `getProductEntity`. */
  function GetProductEntity(products: map<int, Product>, id: int): (r: Result<Product>)
    ensures r.Ok? <==> id in products
    ensures r.Ok? ==> r.value == products[id]
    ensures r.Err? ==> r.error == NotFound("Product")
  {
    if id in products then Ok(products[id]) else Err(NotFound("Product"))
  }

  // ---------------------------------------------------------------- ledger

  /** The product table after `reduceStock(productId, quantity)`. The
      quantity itself is not checked; the subtraction is Java `int`
      arithmetic. */
  function StockReduction(products: map<int, Product>, productId: int, quantity: Int32): (r: Result<map<int, Product>>)
    ensures productId !in products ==> r == Err(NotFound("Product"))
    ensures productId in products && products[productId].stock < quantity ==> r == Err(BadRequest("stock"))
    ensures r.Ok? <==> productId in products && products[productId].stock >= quantity
    ensures r.Ok? ==> && r.value.Keys == products.Keys
                      && r.value[productId] == products[productId].(stock := r.value[productId].stock)
                      && (forall id :: id in products && id != productId ==> r.value[id] == products[id])
    ensures r.Ok? ==> r.value[productId].stock == Sub32(products[productId].stock, quantity)
    ensures r.Ok? && quantity >= 0 ==> 0 <= r.value[productId].stock == products[productId].stock - quantity
  {
    match GetProductEntity(products, productId)
    case Err(e) => Err(e)
    case Ok(product) =>
      if product.stock < quantity then Err(BadRequest("stock"))
      else Ok(products[productId := product.(stock := Sub32(product.stock, quantity))])
  }

  /** A negative quantity passes the guard and raises the stock, and at the
      top of the `int` range the raise wraps to a negative stock. */
  lemma NegativeQuantityWraps()
    ensures var products := map[1 := Product("P", None, 100, MaxInt, 1)];
            && StockReduction(products, 1, -1).Ok?
            && StockReduction(products, 1, -1).value[1].stock == MinInt
  {
  }

  /** `reduceStock`. */
  method ReduceStock(db: Store, productId: int, quantity: Int32) returns (r: Outcome)
    requires db.Valid()
    modifies db`products
    ensures db.Valid()
    ensures StockReduction(old(db.products), productId, quantity).Err? ==>
              r == Fail(StockReduction(old(db.products), productId, quantity).error) && db.products == old(db.products)
    ensures StockReduction(old(db.products), productId, quantity).Ok? ==>
              r == Pass && db.products == StockReduction(old(db.products), productId, quantity).value
  {
    var product := GetProductEntity(db.products, productId);
    if product.Err? {
      return Fail(product.error);
    }
    if product.value.stock < quantity {
      return Fail(BadRequest("stock"));
    }
    db.products := db.products[productId := product.value.(stock := Sub32(product.value.stock, quantity))];
    r := Pass;
  }

  // ---------------------------------------------------------------- catalogue

  /** The checks `createProduct` and `updateProduct` share, in order. */
  function ValidateRequest(dto: ProductRequest): (r: Outcome)
    ensures r.Pass? <==> ValidateNotEmpty(dto.name, "name").Pass? && dto.price.Some? && dto.price.value > 0
                         && dto.stock.Some? && dto.stock.value >= 0
    ensures ValidateNotEmpty(dto.name, "name").Fail? ==> r == Fail(BadRequest("name"))
    ensures ValidateNotEmpty(dto.name, "name").Pass? && ValidatePrice(dto.price).Fail? ==> r == Fail(BadRequest("price"))
    ensures (ValidateNotEmpty(dto.name, "name").Pass? && ValidatePrice(dto.price).Pass?
             && ValidateStock(dto.stock).Fail?) ==> r == Fail(BadRequest("stock"))
  {
    var nameCheck := ValidateNotEmpty(dto.name, "name");
    if nameCheck.Fail? then nameCheck
    else
      var priceCheck := ValidatePrice(dto.price);
      if priceCheck.Fail? then priceCheck
      else ValidateStock(dto.stock)
  }

  /** The record stored for a valid request: trimmed name, trimmed or null
      description, and the request's price, stock and category. */
  function RequestedProduct(dto: ProductRequest): Product
    requires ValidateRequest(dto).Pass?
  {
    Product(Trim(dto.name.value), TrimOrNull(dto.description), dto.price.value, dto.stock.value, dto.categoryId)
  }

  /** The product `createProduct` saves: ADMIN, the request checks, then an
      existing category. */
  function ProductCreation(categories: map<int, Category>, dto: ProductRequest, userRole: Role): (r: Result<Product>)
    ensures userRole != ADMIN ==> r == Err(Forbidden)
    ensures userRole == ADMIN && ValidateRequest(dto).Fail? ==> r == Err(ValidateRequest(dto).error)
    ensures userRole == ADMIN && ValidateRequest(dto).Pass? && dto.categoryId !in categories ==> r == Err(NotFound("Category"))
    ensures r.Ok? <==> userRole == ADMIN && ValidateRequest(dto).Pass? && dto.categoryId in categories
    ensures r.Ok? ==> && r.value.name == Trim(dto.name.value) && r.value.name != []
                      && r.value.price > 0 && r.value.stock >= 0 && r.value.categoryId in categories
                      && r.value == RequestedProduct(dto)
  {
    var guard := CheckAdminAccess(userRole, "create product");
    if guard.Fail? then Err(guard.error)
    else
      var valid := ValidateRequest(dto);
      if valid.Fail? then Err(valid.error)
      else match GetCategoryEntity(categories, dto.categoryId)
        case Err(e) => Err(e)
        case Ok(_) => Ok(RequestedProduct(dto))
  }

  /** `createProduct`: saves the new product under a fresh id. */
  method CreateProduct(db: Store, dto: ProductRequest, userRole: Role) returns (r: Result<int>)
    requires db.Valid()
    modifies db`products, db`nextProductId
    ensures db.Valid()
    ensures StocksNonNegative(old(db.products)) ==> StocksNonNegative(db.products)
    ensures ProductCreation(db.categories, dto, userRole).Err? ==>
              r == Err(ProductCreation(db.categories, dto, userRole).error)
              && db.products == old(db.products) && db.nextProductId == old(db.nextProductId)
    ensures ProductCreation(db.categories, dto, userRole).Ok? ==>
              && r == Ok(old(db.nextProductId))
              && db.products == old(db.products)[old(db.nextProductId) := ProductCreation(db.categories, dto, userRole).value]
              && db.nextProductId == old(db.nextProductId) + 1
  {
    var created := ProductCreation(db.categories, dto, userRole);
    if created.Err? {
      return Err(created.error);
    }
    var id := db.nextProductId;
    db.products := db.products[id := created.value];
    db.nextProductId := id + 1;
    r := Ok(id);
  }

  /** The product `updateProduct` saves: the request is checked before the
      id is looked up, and the category after it. Every field is replaced. */
  function ProductUpdate(products: map<int, Product>, categories: map<int, Category>, id: int,
                         dto: ProductRequest, userRole: Role): (r: Result<Product>)
    ensures userRole != ADMIN ==> r == Err(Forbidden)
    ensures userRole == ADMIN && ValidateRequest(dto).Fail? ==> r == Err(ValidateRequest(dto).error)
    ensures userRole == ADMIN && ValidateRequest(dto).Pass? && id !in products ==> r == Err(NotFound("Product"))
    ensures (userRole == ADMIN && ValidateRequest(dto).Pass? && id in products
             && dto.categoryId !in categories) ==> r == Err(NotFound("Category"))
    ensures r.Ok? <==> userRole == ADMIN && ValidateRequest(dto).Pass? && id in products && dto.categoryId in categories
    ensures r.Ok? ==> r.value == RequestedProduct(dto) && r.value.stock >= 0
  {
    var guard := CheckAdminAccess(userRole, "update product");
    if guard.Fail? then Err(guard.error)
    else
      var valid := ValidateRequest(dto);
      if valid.Fail? then Err(valid.error)
      else match GetProductEntity(products, id)
        case Err(e) => Err(e)
        case Ok(_) =>
          match GetCategoryEntity(categories, dto.categoryId)
          case Err(e) => Err(e)
          case Ok(_) => Ok(RequestedProduct(dto))
  }

  /** An invalid request is reported as such even for an unknown id. */
  lemma UpdateValidatesBeforeLookup(products: map<int, Product>, categories: map<int, Category>, id: int, dto: ProductRequest)
    requires id !in products && ValidateRequest(dto).Fail?
    ensures ProductUpdate(products, categories, id, dto, ADMIN).Err?
    ensures ProductUpdate(products, categories, id, dto, ADMIN).error.BadRequest?
  {
  }

  /** `updateProduct`: the product keeps its id; nothing else changes. */
  method UpdateProduct(db: Store, id: int, dto: ProductRequest, userRole: Role) returns (r: Outcome)
    requires db.Valid()
    modifies db`products
    ensures db.Valid()
    ensures StocksNonNegative(old(db.products)) ==> StocksNonNegative(db.products)
    ensures ProductUpdate(old(db.products), db.categories, id, dto, userRole).Err? ==>
              r == Fail(ProductUpdate(old(db.products), db.categories, id, dto, userRole).error)
              && db.products == old(db.products)
    ensures ProductUpdate(old(db.products), db.categories, id, dto, userRole).Ok? ==>
              r == Pass && db.products == old(db.products)[id := ProductUpdate(old(db.products), db.categories, id, dto, userRole).value]
  {
    var updated := ProductUpdate(db.products, db.categories, id, dto, userRole);
    if updated.Err? {
      return Fail(updated.error);
    }
    db.products := db.products[id := updated.value];
    r := Pass;
  }

  /** `deleteProduct`: ADMIN, then NotFound, then the id is removed. */
  method DeleteProduct(db: Store, id: int, userRole: Role) returns (r: Outcome)
    requires db.Valid()
    modifies db`products
    ensures db.Valid()
    ensures userRole != ADMIN ==> r == Fail(Forbidden)
    ensures userRole == ADMIN && id !in old(db.products) ==> r == Fail(NotFound("Product"))
    ensures r.Pass? <==> userRole == ADMIN && id in old(db.products)
    ensures db.products == if r.Pass? then old(db.products) - {id} else old(db.products)
  {
    var guard := CheckAdminAccess(userRole, "delete product");
    if guard.Fail? {
      return guard;
    }
    if id !in db.products {
      return Fail(NotFound("Product"));
    }
    db.products := db.products - {id};
    r := Pass;
  }

  /** `getProductsByCategory`: NotFound for an unknown category, otherwise
      exactly the products filed under it. */
  function GetProductsByCategory(products: map<int, Product>, categories: map<int, Category>, categoryId: int)
    : (r: Result<map<int, Product>>)
    ensures r.Ok? <==> categoryId in categories
    ensures r.Err? ==> r.error == NotFound("Category")
    ensures r.Ok? ==> forall id :: id in r.value <==> id in products && products[id].categoryId == categoryId
    ensures r.Ok? ==> forall id :: id in r.value ==> r.value[id] == products[id]
  {
    match GetCategoryEntity(categories, categoryId)
    case Err(e) => Err(e)
    case Ok(_) => Ok(map id | id in products && products[id].categoryId == categoryId :: products[id])
  }
}
