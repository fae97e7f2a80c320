# E-commerce order and inventory core, in Dafny

This project models the service layer of a Spring e-commerce backend:

- order placement against the product stock ledger, with its all-or-nothing
  transaction;
- the ADMIN-only order status update and the three ways of reading orders;
- the product and category catalogue;
- user registration and login;
- the authorization and validation helpers these rely on.

The four JPA repositories are one `Store` class (module `Repositories`). Each
table is a `map` from its generated identity to the entity, and each has the
next identity to hand out. Store methods change only the fields their
`modifies` clause names, and each method ties the new state to a pure
function of the old one (`StockReduction`, `PlaceOrder`, `StatusUpdate`,
`ProductCreation`, …). The lemmas are about those functions.

Exceptions become values of `Errors.Error`:

- `BadRequest(field)` is 400;
- `NotFound(resource)` is 404;
- `Forbidden` is 403;
- `Unauthorized` is 401.

A Java `null` is `None`. Money (a `BigDecimal` of scale 2) is a whole number
of cents. A Java `Integer` is the subset type `Int32`, and `stock - quantity`
wraps as Java `int` arithmetic does. `String.trim`, `String.length` (UTF-16
code units), `equalsIgnoreCase` and the line terminators refused by the regex
`.` are defined in module `JavaLang`.

## Model

| member | source | states |
|---|---|---|
| Errors.StatusCode | src/main/java/com/ecommerce/application/exception/BadRequestException.java:9-15 | each exception kind carries its own status, and the status tells the kind back: 400 for BadRequest, 404 for NotFound (ResourceNotFoundException.java:10), 403 for Forbidden (ForbiddenException.java:10), 401 for Unauthorized (UnauthorizedException.java:10) |
| Authorization.CheckAdminAccess | src/main/java/com/ecommerce/application/util/AuthorizationUtil.java:21-25 | passes iff the role is ADMIN; otherwise Forbidden |
| Authorization.CheckRoleAccess | src/main/java/com/ecommerce/application/util/AuthorizationUtil.java:30-37 | passes iff the role is among the required roles; otherwise Forbidden |
| Authorization.ScanRequiredRoles | src/main/java/com/ecommerce/application/util/AuthorizationUtil.java:30-37 | the early-return loop over the varargs gives exactly the answer of `CheckRoleAccess` |
| Authorization.CheckUserOrAdmin | src/main/java/com/ecommerce/application/util/AuthorizationUtil.java:42-46 | passes iff the ids are equal or the role is ADMIN; otherwise Forbidden |
| Authorization.TrivialGuards | src/main/java/com/ecommerce/application/util/AuthorizationUtil.java:30-46 | `checkUserOrAdmin(r, u, u)` and `checkRoleAccess(r, r)` always pass; an empty role list always denies |
| Validation.EmailPatternCorrect | src/main/java/com/ecommerce/application/util/ValidationUtil.java:16 | the left-to-right matcher accepts exactly the language of `^[A-Za-z0-9+_.-]+@(.+)$` (a run of class chars, `@`, a non-empty tail with no line terminator) |
| Validation.ValidateEmail | src/main/java/com/ecommerce/application/util/ValidationUtil.java:15-19 | passes iff the address is non-null and in the pattern's language; otherwise BadRequest("email") |
| Validation.ValidatePassword | src/main/java/com/ecommerce/application/util/ValidationUtil.java:24-28 | passes iff non-null with at least 6 UTF-16 code units; 6 chars always pass; a pass needs at least 3 chars; otherwise BadRequest("password") |
| Validation.ValidateNotEmpty | src/main/java/com/ecommerce/application/util/ValidationUtil.java:33-37 | passes iff non-null and some char is above U+0020 (what `trim` keeps); otherwise BadRequest on the given field |
| Validation.ValidatePrice | src/main/java/com/ecommerce/application/util/ValidationUtil.java:42-46 | passes iff the price is non-null and above zero; otherwise BadRequest("price") |
| Validation.ValidateStock | src/main/java/com/ecommerce/application/util/ValidationUtil.java:51-55 | passes iff the stock is non-null and at least zero; otherwise BadRequest("stock") |
| Validation.ValidatePositive | src/main/java/com/ecommerce/application/util/ValidationUtil.java:60-64 | passes iff the value is non-null and above zero; otherwise BadRequest on the given field |
| Validation.NumericEdges | src/main/java/com/ecommerce/application/util/ValidationUtil.java:42-64 | a zero price fails and one cent passes; a zero stock passes and −1 fails; a zero quantity fails |
| Validation.StringEdges | src/main/java/com/ecommerce/application/util/ValidationUtil.java:24-37 | 5 chars of password fail and 6 pass; a name of blanks fails |
| Validation.EmailEdges | src/main/java/com/ecommerce/application/util/ValidationUtil.java:15-19 | "a@b" passes; "@b", "a@" and "a b@c" fail |
| JavaLang.Trim | src/main/java/com/ecommerce/application/util/ValidationUtil.java:34 | the result is a contiguous part of the input with blank prefix and suffix removed, non-blank at both ends, empty iff the input is blank |
| JavaLang.TrimIdempotent | src/main/java/com/ecommerce/application/service/CategoryService.java:45 | trimming a trimmed string changes nothing |
| JavaLang.Sub32 | src/main/java/com/ecommerce/application/service/ProductService.java:192 | Java `int` subtraction: the true difference whenever it is in range; otherwise that difference plus or minus 2^32, so always congruent to it modulo 2^32 |
| JavaLang.Utf16Length | src/main/java/com/ecommerce/application/util/ValidationUtil.java:25 | `String.length()`: between the number of chars and twice it, and equal to it when no char lies outside the Basic Multilingual Plane |
| JavaLang.Fold | src/main/java/com/ecommerce/application/service/CategoryService.java:80 | the representative used to compare chars ignoring case: ASCII lower-case letters map to upper case and every other ASCII char to itself; of the non-ASCII chars only U+0131 and U+0130 (to I), U+017F (to S) and U+212A (to K) fold onto ASCII, every other one to itself |
| JavaLang.EqualsIgnoreCaseEquivalence | src/main/java/com/ecommerce/application/service/CategoryService.java:80 | `equalsIgnoreCase` (`JavaLang.EqualsIgnoreCase`) is reflexive, symmetric and transitive and never equates strings of different lengths |
| JavaLang.FoldAsciiLetters | src/main/java/com/ecommerce/application/entity/enums/Role.java:24 | two ASCII letters are equal ignoring case iff they are the same letter in either case |
| Roles.RoleValue | src/main/java/com/ecommerce/application/entity/enums/Role.java:9-20 | the role value is "ROLE_" followed by the constant's name |
| Roles.FromString | src/main/java/com/ecommerce/application/entity/enums/Role.java:22-29 | a role it returns matches the string (name or role value, ignoring case); when it returns none, neither constant matches (the IllegalArgumentException) |
| Roles.FromStringMatches | src/main/java/com/ecommerce/application/entity/enums/Role.java:22-29 | `fromString` yields a role iff the string equals its name or its role value ignoring case; every other string, null included, is refused |
| Roles.MatchesAtMostOne | src/main/java/com/ecommerce/application/entity/enums/Role.java:23-27 | no string matches two constants, so the search order does not matter |
| Roles.NameRoundTrip | src/main/java/com/ecommerce/application/entity/enums/Role.java:22-26 | `fromString(r.name()) == r` |
| Roles.RoleValueRoundTrip | src/main/java/com/ecommerce/application/entity/enums/Role.java:22-26 | `fromString(r.getRoleValue()) == r` |
| Roles.FromStringIgnoresCase | src/main/java/com/ecommerce/application/entity/enums/Role.java:24 | strings equal ignoring case are looked up alike |
| Roles.LowerCaseSpellings | src/main/java/com/ecommerce/application/entity/enums/Role.java:24 | "admin" and "role_customer" are accepted |
| Roles.NullAndEmptyRefused | src/main/java/com/ecommerce/application/entity/enums/Role.java:22-28 | null and "" name no role |
| Entities.LineTotal | src/main/java/com/ecommerce/application/entity/OrderItem.java:53-55 | `getLineTotal`: non-negative for a non-negative price and quantity; for a positive quantity, positive iff the price is; the price itself for quantity 1 |
| Entities.Total | src/main/java/com/ecommerce/application/service/OrderService.java:95-97 | the stream total: non-negative when every line is; a single line's `getLineTotal` for one line (order-independence and additivity in `TotalCons`, `TotalPermutation`, `TotalSplit`) |
| Entities.TotalCons | src/main/java/com/ecommerce/application/service/OrderService.java:95-97 | the stream total adds each line's amount once, wherever the line sits |
| Entities.TotalPermutation | src/main/java/com/ecommerce/application/service/OrderService.java:95-97 | the total of the lines is the same in any order |
| Entities.TotalSplit | src/main/java/com/ecommerce/application/entity/OrderItem.java:54-56 | removing one line from anywhere lowers the total by exactly that line's `getLineTotal` |
| UserService.FindByEmail | src/main/java/com/ecommerce/application/service/UserService.java:83 | finds a user iff one has that address, and the one found has it |
| UserService.MapToUserView | src/main/java/com/ecommerce/application/service/UserService.java:147-154 | the view carries the id, name and address, and the role's constant name (`getRole().name()`), which `Role.fromString` maps back to the user's role |
| UserService.Registration | src/main/java/com/ecommerce/application/service/UserService.java:42-68 | name, then e-mail shape, then password, then a free address, each failing with BadRequest on its own field (a taken address is BadRequest("email")); the saved user has the request's name and address, the encoder's output as password, and role CUSTOMER |
| UserService.RegistrationKeepsEmailsUnique | src/main/java/com/ecommerce/application/service/UserService.java:51-68 | a registration never creates a second user with the same address |
| UserService.RegisterUser | src/main/java/com/ecommerce/application/service/UserService.java:42-72 | on a failed check nothing is stored; otherwise the user from `Registration` is stored under a fresh id and returned; the store invariant is kept |
| UserService.LoginUser | src/main/java/com/ecommerce/application/service/UserService.java:79-107 | every error is Unauthorized, for a null or unknown address and a wrong password alike; succeeds iff the address is non-null and a user with it matches the password; the response carries that user's token, "Bearer", id, address, name and role name |
| UserService.GetUserById | src/main/java/com/ecommerce/application/service/UserService.java:116-126 | the self-or-admin guard runs first (Forbidden even for a missing id); then NotFound; otherwise the user's view |
| UserService.GetUserEntityById | src/main/java/com/ecommerce/application/service/UserService.java:139-142 | the user iff the id is stored, otherwise NotFound("User") |
| UserService.GetUserByEmail | src/main/java/com/ecommerce/application/service/UserService.java:131-134 | the user with that address iff one exists, otherwise NotFound("User") |
| CategoryService.TrimOrNull | src/main/java/com/ecommerce/application/service/CategoryService.java:52 | null stays null, anything else is trimmed |
| CategoryService.GetCategoryEntity | src/main/java/com/ecommerce/application/service/CategoryService.java:144-147 | the category iff the id is stored, otherwise NotFound("Category") |
| CategoryService.CategoryCreation | src/main/java/com/ecommerce/application/service/CategoryService.java:37-53 | Forbidden for a non-ADMIN; otherwise succeeds iff the name is non-blank and its trimmed form is free, and every other failure is BadRequest("name"); stores the trimmed name and the trimmed-or-null description |
| CategoryService.CreationKeepsNamesUnique | src/main/java/com/ecommerce/application/service/CategoryService.java:45-55 | creation never makes two categories share a name |
| CategoryService.CreateCategory | src/main/java/com/ecommerce/application/service/CategoryService.java:37-59 | nothing changes on error; otherwise the category is stored under a fresh id |
| CategoryService.CategoryUpdate | src/main/java/com/ecommerce/application/service/CategoryService.java:66-87 | ADMIN, then a non-blank name, then NotFound; a name taken by the check is BadRequest("name"); succeeds iff the current name equals the untrimmed new one ignoring case or the trimmed new name is free; writes the trimmed name and description |
| CategoryService.RenameKeepsNamesUnique | src/main/java/com/ecommerce/application/service/CategoryService.java:80-89 | a rename whose name changes beyond case keeps names unique |
| CategoryService.CaseOnlyRenameMayDuplicate | src/main/java/com/ecommerce/application/service/CategoryService.java:80-81 | renaming "Books" to "BOOKS" skips the query and duplicates an existing "BOOKS" |
| CategoryService.PaddedOwnNameRefused | src/main/java/com/ecommerce/application/service/CategoryService.java:80-82 | renaming "Books" to " Books" is refused as a duplicate of itself |
| CategoryService.UpdateCategory | src/main/java/com/ecommerce/application/service/CategoryService.java:66-93 | nothing changes on error; otherwise only that id's record is replaced |
| CategoryService.DeleteCategory | src/main/java/com/ecommerce/application/service/CategoryService.java:100-113 | Forbidden for a non-ADMIN, then NotFound; succeeds iff ADMIN and the id is stored, and then exactly that id is removed |
| ProductService.GetProductEntity | src/main/java/com/ecommerce/application/service/ProductService.java:174-177 | the product iff the id is stored, otherwise NotFound("Product") |
| ProductService.StockReduction | src/main/java/com/ecommerce/application/service/ProductService.java:183-193 | NotFound for an unknown id; BadRequest("stock") when stock < quantity; otherwise only that product's stock changes, to the Java `int` value of stock − quantity for any quantity, which for a non-negative quantity is the exact difference and ≥ 0 |
| ProductService.NegativeQuantityWraps | src/main/java/com/ecommerce/application/service/ProductService.java:188-192 | a negative quantity passes the guard, and at the top of the `int` range the new stock wraps to the minimum |
| ProductService.ReduceStock | src/main/java/com/ecommerce/application/service/ProductService.java:183-195 | the product table afterwards is exactly `StockReduction`'s result, unchanged on error |
| ProductService.ValidateRequest | src/main/java/com/ecommerce/application/service/ProductService.java:47-49 | name, then price, then stock, each failing with BadRequest on its field; passes iff all three hold |
| ProductService.ProductCreation | src/main/java/com/ecommerce/application/service/ProductService.java:40-63 | ADMIN, then the request checks, then NotFound("Category"); the saved product has the trimmed non-blank name, a positive price, a non-negative stock and an existing category |
| ProductService.CreateProduct | src/main/java/com/ecommerce/application/service/ProductService.java:40-69 | nothing changes on error; otherwise the product is stored under a fresh id, and no stock becomes negative |
| ProductService.ProductUpdate | src/main/java/com/ecommerce/application/service/ProductService.java:76-100 | ADMIN, then the request checks, then NotFound("Product"), then NotFound("Category"); on success every field is replaced from the request |
| ProductService.UpdateValidatesBeforeLookup | src/main/java/com/ecommerce/application/service/ProductService.java:83-89 | an invalid request for an unknown id is a BadRequest, not NotFound |
| ProductService.UpdateProduct | src/main/java/com/ecommerce/application/service/ProductService.java:76-106 | nothing changes on error; otherwise only that id's record is replaced |
| ProductService.DeleteProduct | src/main/java/com/ecommerce/application/service/ProductService.java:113-126 | Forbidden for a non-ADMIN, then NotFound; succeeds iff ADMIN and the id is stored, and then exactly that id is removed |
| ProductService.GetProductsByCategory | src/main/java/com/ecommerce/application/service/ProductService.java:159-168 | NotFound for an unknown category; otherwise exactly the products filed under it |
| OrderService.MapToItemView | src/main/java/com/ecommerce/application/service/OrderService.java:211-218 | a view line carries the line's product id, quantity, stored price and `getLineTotal`, and the product's current name when the product exists |
| OrderService.MapToOrderView | src/main/java/com/ecommerce/application/service/OrderService.java:208-230 | the view copies the order's id, owner id, total and status, the owner's address when the owner exists, and one view line per order line, in order |
| OrderService.SumLineTotalsOfViews | src/main/java/com/ecommerce/application/service/OrderService.java:210-218 | the line totals shown sum to the order's total of its lines |
| OrderService.ViewTotalIsSumOfLines | src/main/java/com/ecommerce/application/service/OrderService.java:208-230 | in the view of a consistent order, the total equals the sum of the line totals shown |
| OrderService.ViewIgnoresCurrentPrices | src/main/java/com/ecommerce/application/entity/OrderItem.java:42-56 | prices, quantities, line totals and the total shown are the same whatever the products' current prices |
| OrderService.PriceLine | src/main/java/com/ecommerce/application/service/OrderService.java:70-91 | quantity, then product, then the stock pre-check, with their errors; on success the line has the requested product and quantity and the product's current price |
| OrderService.PricedLines | src/main/java/com/ecommerce/application/service/OrderService.java:67-91 | succeeds iff every line passes; the lines are the priced requests, one per request, in input order |
| OrderService.PricedLinesFirstError | src/main/java/com/ecommerce/application/service/OrderService.java:70-81 | the first failing line decides the error |
| OrderService.PricedLinesPrefixError | src/main/java/com/ecommerce/application/service/OrderService.java:70-91 | a failing prefix fails the whole list with the same error |
| OrderService.PriceItems | src/main/java/com/ecommerce/application/service/OrderService.java:67-91 | the pricing loop returns exactly `PricedLines` |
| OrderService.StockReductionsPrefixError | src/main/java/com/ecommerce/application/service/OrderService.java:119-121 | a failing decrement ends the run with its error |
| OrderService.StockReductionsEffect | src/main/java/com/ecommerce/application/service/OrderService.java:119-121 | after all decrements each product's stock has fallen by the total quantity of its lines, and nothing else about any product changed |
| OrderService.DemandNonNegative | src/main/java/com/ecommerce/application/service/OrderService.java:119-121 | lines with non-negative quantities ask a non-negative amount of each product |
| OrderService.StockReductionsSucceedIff | src/main/java/com/ecommerce/application/service/OrderService.java:119-121 | all decrements succeed iff every product named exists and its stock covers the sum of its lines |
| OrderService.DistinctProductsSucceed | src/main/java/com/ecommerce/application/service/OrderService.java:78-121 | with one line per product, the per-line pre-checks guarantee every decrement succeeds |
| OrderService.DemandOfDistinct | src/main/java/com/ecommerce/application/service/OrderService.java:119-121 | with one line per product, the demand on a product is its line's quantity |
| OrderService.DemandAbsent | src/main/java/com/ecommerce/application/service/OrderService.java:119-121 | a product named by no line is asked for nothing |
| OrderService.StockReductionsKeepStocks | src/main/java/com/ecommerce/application/service/OrderService.java:119-121 | successful decrements never leave a negative stock |
| OrderService.ReduceStocks | src/main/java/com/ecommerce/application/service/OrderService.java:119-121 | the `forEach` ends with the table `StockReductions` gives, or with its error |
| OrderService.StockReductions | src/main/java/com/ecommerce/application/service/OrderService.java:119-121 | the decrements in line order keep the set of products, and fail only with NotFound("Product") or BadRequest("stock") (their effect in `StockReductionsEffect`, their success in `StockReductionsSucceedIff`) |
| OrderService.PlaceOrder | src/main/java/com/ecommerce/application/service/OrderService.java:49-121 | the transaction's checks in order: Forbidden for a non-CUSTOMER, BadRequest("items") for a null or empty list, NotFound("User"), the first failing line's error, then a failing decrement's error; succeeds iff all pass, with the priced lines, their total and the decremented table |
| OrderService.CustomersOnly | src/main/java/com/ecommerce/application/service/OrderService.java:54-56 | a non-CUSTOMER is refused with Forbidden before anything else |
| OrderService.EmptyOrderRejected | src/main/java/com/ecommerce/application/service/OrderService.java:59-61 | a null or empty item list is BadRequest("items") |
| OrderService.UnknownUserRejected | src/main/java/com/ecommerce/application/service/OrderService.java:63-64 | a CUSTOMER with a non-empty list and an unknown id gets NotFound("User") whatever the products are |
| OrderService.FirstBadLineDecides | src/main/java/com/ecommerce/application/service/OrderService.java:70-81 | the first line that fails its checks decides the order's error |
| OrderService.PlacementContents | src/main/java/com/ecommerce/application/service/OrderService.java:49-121 | a placed order comes from a known CUSTOMER, holds the requested lines in order at the products' prices, totals their amounts, and lowers each stock by exactly the quantity ordered of it, never below zero |
| OrderService.PlacementSucceedsIff | src/main/java/com/ecommerce/application/service/OrderService.java:70-121 | once the pre-checks pass, the order goes through iff each product's stock covers the sum of its lines |
| OrderService.DistinctProductsPlaced | src/main/java/com/ecommerce/application/service/OrderService.java:70-121 | with no product named twice, passing the pre-checks means the order is placed |
| OrderService.DuplicateLinesOverdraw | src/main/java/com/ecommerce/application/service/OrderService.java:78-121 | two lines of 3 against a stock of 5 each pass the pre-check, but the order fails with BadRequest("stock") |
| OrderService.OrderScenario | src/main/java/com/ecommerce/application/service/OrderService.java:49-124 | ordering 3 of a product at 10.00 with stock 5 costs 30.00 and leaves 2; a second such order is refused for stock |
| OrderService.SavedOrderConsistent | src/main/java/com/ecommerce/application/service/OrderService.java:72-115 | an order saved with the priced lines and their total keeps every stored order's total equal to the sum of its lines, with positive quantities |
| OrderService.PrepareOrder | src/main/java/com/ecommerce/application/service/OrderService.java:53-91 | the checks before the save change nothing; an error there is the placement's error, and success means a known CUSTOMER with the priced lines |
| OrderService.CreateOrder | src/main/java/com/ecommerce/application/service/OrderService.java:48-124 | on any error no order is stored and no stock changes; otherwise the order (caller, lines, total, CREATED) is stored under a fresh id and the stocks are those of `PlaceOrder` |
| OrderService.StatusUpdate | src/main/java/com/ecommerce/application/service/OrderService.java:133-145 | ADMIN, then NotFound; otherwise only that order's status changes, to any value whatever it was |
| OrderService.StatusUpdateIdempotent | src/main/java/com/ecommerce/application/service/OrderService.java:142 | setting the same status twice equals setting it once |
| OrderService.StatusUpdateThenRead | src/main/java/com/ecommerce/application/service/OrderService.java:133-166 | after an update, the owner or an ADMIN reads the new status with the old lines and total |
| OrderService.UpdateOrderStatus | src/main/java/com/ecommerce/application/service/OrderService.java:131-149 | the order table afterwards is `StatusUpdate`'s result, unchanged on error |
| OrderService.GetOrderById | src/main/java/com/ecommerce/application/service/OrderService.java:155-166 | NotFound first; then succeeds iff the caller owns the order or is ADMIN, else Forbidden |
| OrderService.LookupOrderContrast | src/main/java/com/ecommerce/application/service/OrderService.java:159-163 | a customer probing a missing id learns NotFound for an order but Forbidden for a user |
| OrderService.OrdersOf | src/main/java/com/ecommerce/application/service/OrderService.java:182-184 | exactly the orders owned by the user, each as its view |
| OrderService.GetUserOrders | src/main/java/com/ecommerce/application/service/OrderService.java:172-185 | as written: never denies, for any role; always the user's orders |
| OrderService.CustomerReadsOthersOrders | src/main/java/com/ecommerce/application/service/OrderService.java:176-179 | a customer signed in as user 2 is given user 1's orders |
| OrderService.GetUserOrdersGuarded | src/main/java/com/ecommerce/application/service/OrderService.java:168-179 | succeeds iff the acting user is the target or ADMIN, else Forbidden; then the target's orders |
| OrderService.GuardedListingOwnOrdersOnly | src/main/java/com/ecommerce/application/service/OrderService.java:168-179 | under the guarded listing a customer sees only orders they own |
| OrderService.GetAllOrders | src/main/java/com/ecommerce/application/service/OrderService.java:191-202 | succeeds iff ADMIN, else Forbidden; then every stored order as its view |

## Left out

- Controllers, `SecurityContextHolder` and `GlobalExceptionHandler`. The caller's id and role are explicit parameters. Only the kind of each error and its field or resource name are kept, not the message text.
- `JwtUtil` and the password encoder are foreign code. `encode`, `matches` and `generateToken` are function parameters.
- Timestamps (`createdAt`, `updatedAt`) and all logging.
- Null ids (`Long` parameters): every id is an `int`.
- UserService.LoginUser: the password matcher is a total function of the (possibly null) raw password and the stored hash; an encoder that throws on a null password is not modelled.
- Foreign keys. Deleting a category that products still use, or a product that order lines still use, succeeds in the model. In the database it would be refused. The views show `None` for a product or user that is gone.
- The database collation used by `existsByName` and `existsByEmail`. Both are exact string equality here.
- Identity gaps. A rolled-back `createOrder` gives its id back, whereas a database sequence would skip it.
- Prices are whole cents. The 2-decimal scale is assumed rather than checked, and a price with more digits would be rounded by the column.
- CategoryService.CategoryUpdate: `equalsIgnoreCase` is exact when one side is ASCII (every case in the lemmas). For two non-ASCII strings, it compares by an ASCII-only fold plus the four special chars in `JavaLang.Fold`.
- Java strings are UTF-16, while Dafny strings are sequences of Unicode scalar values. `Utf16Length` counts code units for the password check. Unpaired surrogates are not represented.
- Concurrent placements and row locking. `CreateOrder` is one atomic step.
- `getProductById`, `getAllProducts`, `getCategoryById` and `getAllCategories` are plain lookups outside the order and inventory core. They return the same data that `GetProductEntity` and `GetCategoryEntity` give. `findByStatus` is never called.
- ProductService.GetProductsByCategory, OrderService.OrdersOf and OrderService.GetAllOrders return maps keyed by id. The order of the lists the repository returns is not modelled.
- OrderService.ReduceStocks: after a failing decrement, the partly reduced table is not stated. `CreateOrder` restores the table either way.
- The identity of an `OrderItem` and its back-reference to the order are not modelled. A line belongs to the order that holds it.

## Findings

| source | as written | input that shows it | evidently intended | confidence | as-written member | corrected member |
|---|---|---|---|---|---|---|
| src/main/java/com/ecommerce/application/service/OrderService.java:176-179 | `checkUserOrAdmin(userRole, userId, userId)` compares the requested user id with itself, so the guard never denies, and `GET /api/orders/user/{userId}` lets any CUSTOMER list any user's orders | a CUSTOMER signed in as user 2 requests user 1's orders and is given order 10 of user 1 | compare the signed-in user's id with the requested one, as the comment "Can only view own orders unless ADMIN" says | high; not executed | OrderService.GetUserOrders, OrderService.CustomerReadsOthersOrders | OrderService.GetUserOrdersGuarded, OrderService.GuardedListingOwnOrdersOnly |
