# Storefront core, modelled in Dafny

This project models the core of a small clothing storefront. The backend is a REST API over a
document store. The frontend is a script that keeps the cart in the browser's storage.
The model covers:

- **Orders** (`orders.dfy`, `order_schema.dfy`): placing an order and the order schema that
  checks it; reading one order; listing the caller's orders or all orders, newest first;
  setting the order and payment status; cancelling.
- **Catalogue** (`catalog.dfy`, `product_schema.dfy`): the public product listing; fetching,
  creating, updating and deleting products; the product schema with its defaults.
  - The listing filters by active flag, category, badge, case-insensitive search and price
    range. It then sorts and pages the result.
- **Accounts** (`auth.dfy`): registration and login over a map of accounts keyed by their
  stored e-mail address.
- **Access control** (`access.dfy`): the `protect` middleware (bearer token to account) and
  the `admin` middleware (administrators only).
- **Client** (`storefront.dfy`):
  - the cart kept in browser storage, with its total and item count;
  - checkout, with its free-shipping rule;
  - the hero slider;
  - the category label lookup.
- **Helpers** (`common.dfy`, `sorting.dfy`): JavaScript truthiness of request fields,
  lower-casing, `trim`, and a sort by comparator proved sorted and a permutation.

State that the source changes in place is a `class`:
- `Orders.OrderStore` keeps the orders collection.
- `Catalog.ProductStore` keeps the products collection.
- `Auth.UserStore` keeps the accounts.
- `Access.Request` is the request object the middlewares annotate.
- `Storefront.BrowserStorage` holds the `cart` and `user` storage keys.
- `Storefront.Slider` holds the current slide index.

Each handler's decision is a function: `PlanOrder`, `ApplyStatusUpdate`, `CancelDecision`,
`ListProducts`, `RegisterDecision`, `ProtectDecision` and `AdminDecision`. The class methods
are proved against these functions, and lemmas state what the functions promise.

Four things the core calls are parameters rather than code:
- the clock, passed as `now`;
- password hashing and comparison, passed as `hash` and `matches`;
- token signing and verification, passed as `sign` and `verify`;
- the account lookup, passed as `findUser`.

Money is a whole number of dong (`int`). A request body field is `Field<T>`, whose cases are
`Undefined` (absent), `Null` and `Value`. HTTP responses are `Outcome<T>`, whose cases carry the
status: 200/201 (`Ok`), 400, 401, 403, 404 and 500.

## Model

| member | source | states |
|---|---|---|
| Common.LowerIsLower | backend/controllers/authController.js:99 | lower-casing keeps the length, gives a string with no upper-case letter, and leaves a lower-case string unchanged |
| Common.TrimIsSlice | backend/models/Product.js:4-9 | `trim` gives a string with no white space at either end, and that string is a contiguous slice of the input with only white space cut off |
| Common.TrimIdempotent | backend/models/Product.js:4-9 | trimming an already trimmed name changes nothing |
| Common.LowerTrimCommute | backend/controllers/authController.js:34 | lower-casing then trimming the address is the same as trimming then lower-casing it |
| Sorting.InsertionSortCorrect | backend/controllers/orderController.js:226-227 | for a total preorder, sorting gives a sorted sequence with exactly the same elements (same multiset) |
| Sorting.InsertionSortNoRepeats | backend/controllers/orderController.js:227 | sorting a list without repeated elements gives a list without repeated elements |
| Sorting.LexLeqTotal | backend/controllers/productController.js:52-53 | any two names are comparable in the name order |
| Sorting.LexLeqTransitive | backend/controllers/productController.js:52-53 | the name order is transitive |
| Sorting.LexLeqAntisymmetric | backend/controllers/productController.js:52-53 | two names each ordered before the other are equal |
| OrderSchema.ParsePaymentMethod | backend/models/Order.js:30-34 | a payment method name is accepted exactly when it is one of cod, bank, card, momo, and it maps back to that name |
| OrderSchema.ParsePaymentStatus | backend/models/Order.js:35-39 | a payment status is accepted exactly when it is one of the three names, and it maps back to that name |
| OrderSchema.ParseOrderStatus | backend/models/Order.js:55-59 | an order status is accepted exactly when it is one of the five names, and it maps back to that name |
| OrderSchema.EnumNamesRoundTrip | backend/models/Order.js:30-59 | each enumeration value's name parses back to that value |
| OrderSchema.ValidateOrder | backend/models/Order.js:3-66 | an order document is stored exactly when it meets the schema. The stored order meets the schema constraints and keeps the owner, every item, every shipping field and the payment method. A supplied status or price is kept; an absent status starts as pending and an absent price as 0. The id and creation time are the ones assigned, and there is no delivery time |
| OrderSchema.NegativePricesAccepted | backend/models/Order.js:40-54 | the schema puts no lower bound on prices: an order with a total of -1 is stored |
| Orders.MissingFields | backend/controllers/orderController.js:46-55 | lists exactly the required shipping fields that are missing or empty, in the declared order; it is empty exactly when all are present |
| Orders.MissingFieldsUnique | backend/controllers/orderController.js:46-47 | the missing-field list is determined by its members: two subsequences of the field list with the same members are equal |
| Orders.PlanOrder | backend/controllers/orderController.js:7-170 | createOrder's response: every refusal is a 400, and a created order has the new id, the caller as owner, the current time and meets the schema (its acceptance condition is `CreateAcceptsExactly`) |
| Orders.CreateAcceptsExactly | backend/controllers/orderController.js:7-170 | an order is created exactly when every check passes: non-empty items, shipping info with all required fields, a known payment method, the three prices, and a valid document |
| Orders.CreateRejectsEmptyItems | backend/controllers/orderController.js:26-32 | a missing or empty item list is refused with the empty-cart message |
| Orders.CreateRejectsMissingShipping | backend/controllers/orderController.js:37-43 | with items present, an absent or null shipping block is refused with the missing-shipping message, before the required fields are checked |
| Orders.CreateNamesMissingShippingFields | backend/controllers/orderController.js:46-55 | with items present, missing shipping fields are refused with a message naming exactly those fields |
| Orders.CreatePaymentMethodGate | backend/controllers/orderController.js:66-73 | an unknown payment method is refused with its own message once items and shipping pass |
| Orders.CreatePriceGate | backend/controllers/orderController.js:78-84 | an absent price is refused with the missing-price message. A null price passes this check and is refused later by the schema |
| Orders.CreatedOrderSnapshot | backend/controllers/orderController.js:94-117 | a created order belongs to the caller and has the new id and the current time. Both statuses are pending and there is no delivery time. Each item copies the submitted name, quantity and price, and its product is `productId` or else `product`. The shipping note defaults to empty, and the three prices are the submitted ones |
| Orders.ApplyStatusUpdate | backend/controllers/orderController.js:294-324 | a status update succeeds exactly when each supplied status is a known name. It changes only the two statuses and the delivery time. The delivery time is set to now exactly when the new status is delivered |
| Orders.AnyStatusReachable | backend/controllers/orderController.js:297-305 | an administrator can move an order to any order status |
| Orders.CancelDecision | backend/controllers/orderController.js:366-384 | a cancel succeeds exactly when the caller owns the order or is an administrator and the status is pending or processing; it changes only the status. Otherwise it gives 403, or 400 naming the current status |
| Orders.CancelTwiceFails | backend/controllers/orderController.js:375-381 | cancelling a cancelled order fails with the cannot-cancel message |
| Orders.NewestFirstIsPreorder | backend/controllers/orderController.js:227 | newest-first is a total preorder on orders |
| Orders.Listed | backend/controllers/orderController.js:226 | the listing holds exactly the stored orders below the id bound, restricted to the owner when one is given; when every order sits under its own id, the ids strictly increase, so no order is listed twice |
| Orders.OrderStore.CreateOrder | backend/controllers/orderController.js:7-170 | the response is the order decision; on success the order is added under a fresh id and nothing else changes; on failure nothing changes |
| Orders.OrderStore.GetOrder | backend/controllers/orderController.js:175-217 | 404 for an unknown id, 403 for a caller who is neither the owner nor an administrator, otherwise the stored order |
| Orders.OrderStore.GetMyOrders | backend/controllers/orderController.js:222-245 | returns exactly the caller's stored orders, each once, newest first |
| Orders.OrderStore.GetAllOrders | backend/controllers/orderController.js:250-274 | returns exactly the stored orders, each once, newest first |
| Orders.OrderStore.UpdateOrderStatus | backend/controllers/orderController.js:279-345 | 404 for an unknown id. Otherwise the response is the status update decision, and the order is saved only when that decision succeeds |
| Orders.OrderStore.CancelOrder | backend/controllers/orderController.js:350-401 | 404 for an unknown id. Otherwise the response is the cancel decision, and the order is saved only when that decision succeeds |
| ProductSchema.ParseCategory | backend/models/Product.js:23-27 | a category is accepted exactly when it is men, women or accessories, and it maps back to that name |
| ProductSchema.ParseBadge | backend/models/Product.js:28-32 | a badge is accepted exactly when it is new or sale, and it maps back to that name |
| ProductSchema.ApplyFields | backend/controllers/productController.js:145-148 | writing accepted fields over a product keeps the schema, the id and the creation time. For every field, a supplied value is stored (the name trimmed, category and badge by name), an absent one keeps its value, and null on an optional field stores null |
| ProductSchema.ValidateProduct | backend/models/Product.js:3-66 | a product document is stored exactly when it is valid. The stored product meets the schema. Each supplied field is stored (the name trimmed), null on an optional field stores null, and each absent field takes its schema default |
| ProductSchema.DefaultsOfMinimalProduct | backend/models/Product.js:19-60 | a product with only the four required fields gets all the schema defaults: no original price, no badge, empty image, zero stock, sold, rating and reviews, and active |
| ProductSchema.RefusedValues | backend/models/Product.js:4-52 | names empty or over 100 characters after trimming, negative price or stock, null stock, unknown category or badge, and ratings outside [0, 5] are refused |
| Catalog.Filter | backend/controllers/productController.js:20-41 | keeps exactly the products that are active and match the category, badge, search and price filters |
| Catalog.Matches | backend/controllers/productController.js:20-41 | the condition a query puts on one product; specified by `AllCategoriesIsNoFilter`, `PriceBoundsInclusive` and `SearchIgnoresCase` |
| Catalog.FilterSplit | backend/controllers/productController.js:62-67 | filtering distributes over concatenation, so the matches keep their store order and multiplicity and `total` counts each matching product once |
| Catalog.SortKeyOf | backend/controllers/productController.js:44-57 | price-asc, price-desc and name select their orders; every other value selects newest first |
| Catalog.BeforeIsPreorder | backend/controllers/productController.js:44-57 | every sort order is a total preorder on products |
| Catalog.Ranked | backend/controllers/productController.js:62-63 | the matches in the requested order; specified by `RankedCorrect` |
| Catalog.RankedCorrect | backend/controllers/productController.js:62-63 | the ranked list is sorted by the chosen order and is a permutation of the matching products |
| Catalog.Window | backend/controllers/productController.js:60-65 | the page is the slice that starts at `skip` and holds at most `|limit|` products (a zero limit means no limit) |
| Catalog.PageCount | backend/controllers/productController.js:74 | `pages` is the ceiling of total/limit; it is null for a zero limit |
| Catalog.ListProducts | backend/controllers/productController.js:6-83 | the listing succeeds exactly when `skip` is not negative, and otherwise gives 500. `count` is the page length, `page` is the requested page, `total` counts all matches and `pages` is their page count |
| Catalog.ListedProductsMatch | backend/controllers/productController.js:20-65 | every listed product is stored, active and matches the filters, and the page is sorted |
| Catalog.PageIsWindow | backend/controllers/productController.js:60-76 | the page is the window of the ranked matches, at most `|limit|` long for a non-zero limit of either sign, and `total` is the number of matches |
| Catalog.AllCategoriesIsNoFilter | backend/controllers/productController.js:22-24 | category `all` filters nothing; any other non-empty category keeps only that category |
| Catalog.PriceBoundsInclusive | backend/controllers/productController.js:37-41 | both price bounds are inclusive |
| Catalog.SearchIgnoresCase | backend/controllers/productController.js:30-35 | a product whose name contains the search text in any letter case matches the search |
| Catalog.Without | backend/controllers/productController.js:177 | deleting removes exactly the products with that id and keeps the rest |
| Catalog.WithoutOne | backend/controllers/productController.js:166-177 | with distinct ids, deleting a stored id removes exactly that one position |
| Catalog.IndexOf | backend/controllers/productController.js:90 | finds a position holding the id, or none exactly when no product has it |
| Catalog.ProductStore.GetProduct | backend/controllers/productController.js:88-109 | the stored product with that id, or 404 with the not-found message exactly when there is none |
| Catalog.ProductStore.CreateProduct | backend/controllers/productController.js:114-129 | a valid body adds the validated product under a fresh id; an invalid one changes nothing and gives 500 |
| Catalog.ProductStore.UpdateProduct | backend/controllers/productController.js:134-161 | 404 for an unknown id; a body that breaks a field rule changes nothing and gives 500; otherwise the update succeeds, only that product is rewritten with the supplied fields, and the response is its new state |
| Catalog.ProductStore.DeleteProduct | backend/controllers/productController.js:166-188 | 404 exactly when the id is unknown; otherwise that product is removed, the rest are kept in order, and the success message is returned |
| Auth.StoredEmail | backend/controllers/authController.js:34 | the stored address is lower-case and has no white space at either end |
| Auth.RegisterDecision | backend/controllers/authController.js:7-79 | registration succeeds exactly when all fields are present, neither the lower-cased nor the stored address is taken, and the account validators accept. The new account is a customer with the trimmed name, the stored address and the hashed password. Every failure is 400 |
| Auth.RegisterRefusesTakenEmail | backend/controllers/authController.js:22-72 | with every field present, an address whose lower-cased form is stored is refused with the email-taken message whatever the validators say. A padded form that is taken only once trimmed gets that message when the account validators accept, and their message otherwise. The email-taken message comes exactly in these two cases |
| Auth.RegisterResponseOmitsPassword | backend/controllers/authController.js:40-53 | the registration response does not depend on the password |
| Auth.PaddedEmailNeverFound | backend/controllers/authController.js:99 | login never finds an address that has white space at either end |
| Auth.UserStore.Register | backend/controllers/authController.js:7-79 | on success the new account is stored under its address, which was free, and a session is returned; on failure nothing changes |
| Auth.UserStore.Login | backend/controllers/authController.js:84-139 | 400 when a field is missing. Otherwise the login succeeds exactly when the lower-cased address is stored and the password matches, and it returns that account's session. An unknown address and a wrong password give the same 401 |
| Access.Split | backend/middleware/auth.js:14 | splitting gives at least one piece, no piece holds the separator, joining the pieces with the separator gives back the input, and there are two or more pieces exactly when the separator occurs |
| Access.TokenOf | backend/middleware/auth.js:14 | a token is found exactly when the header holds a space, and it holds no space |
| Access.BearerHeaderRoundTrip | backend/middleware/auth.js:11-14 | the header `Bearer <token>` passes the scheme check and gives back the token |
| Access.ProtectDecision | backend/middleware/auth.js:5-69 | a request passes exactly when the header starts with Bearer, carries a token that verifies, and that token's account exists; the account is attached. A missing header gives the login-required 401 and a bad token the invalid-token 401 |
| Access.AdminDecision | backend/middleware/auth.js:72-90 | passes exactly for an administrator account; other accounts get 403; no account gives 500 |
| Access.AdminRouteReachedIff | backend/routes/products.js:18-19 | an administrator-only route is reached exactly for an existing administrator with a valid token |
| Access.Request.Protect | backend/middleware/auth.js:5-69 | the next handler is called once exactly on success, with the account attached; otherwise the 401 response is sent |
| Access.Request.RequireAdmin | backend/middleware/auth.js:72-90 | the next handler is called once exactly for an administrator; otherwise the 403 or 500 response is sent |
| Storefront.FirstMatch | frontend/js/app.js:53 | finds the first cart line for the product, or none exactly when no line has it |
| Storefront.Total | frontend/js/app.js:95-98 | the cart total is non-negative when prices and quantities are; `FoldsOfUpdate`, `FoldsOfAppend` and `FoldsOfRemoval` give its change under each cart operation |
| Storefront.Count | frontend/js/app.js:100-107 | the badge count is non-negative when quantities are; `CountAtLeastLength` and the fold lemmas give the rest |
| Storefront.AddItem | frontend/js/app.js:51-69 | after an add the product is in the cart, and the cart grows by one line exactly when it was not there (`AddTouchesOneEntry` gives the lines) |
| Storefront.Kept | frontend/js/app.js:73 | removal keeps exactly the lines of other products, unchanged when there is none to remove |
| Storefront.KeptSplit | frontend/js/app.js:73 | removal distributes over concatenation, so the remaining lines keep their order and multiplicity |
| Storefront.FoldsOfUpdate | frontend/js/app.js:95-107 | replacing one line changes the count and total by exactly that line's difference |
| Storefront.FoldsOfAppend | frontend/js/app.js:95-107 | appending a line adds its quantity to the count and its value to the total |
| Storefront.FoldsOfRemoval | frontend/js/app.js:71-75 | removing a product lowers the count by its quantity and the total by its value |
| Storefront.CountAtLeastLength | frontend/js/app.js:100-107 | with positive quantities, the badge count is at least the number of lines, and zero exactly for an empty cart |
| Storefront.AddRaisesFolds | frontend/js/app.js:51-69 | adding a product raises the count by one and the total by one unit's price (the price already in the cart for a product that is there) |
| Storefront.AddTouchesOneEntry | frontend/js/app.js:51-69 | adding a product already in the cart raises its quantity by one and keeps its name, price and image and every other line; a new product is appended with quantity 1 and the name `Sản phẩm` when none is given |
| Storefront.AddKeepsWellFormed | frontend/js/app.js:51-69 | adding keeps positive quantities, names and one line per product |
| Storefront.KeptKeepsWellFormed | frontend/js/app.js:71-75 | removing keeps the cart well formed |
| Storefront.ShippingPrice | frontend/js/app.js:158 | shipping is free exactly from 2,000,000 upwards, and 50,000 otherwise |
| Storefront.CheckoutRequest | frontend/js/app.js:150-168 | the request holds one item per cart line and the given shipping details and payment method (`CheckoutPrices` gives the prices) |
| Storefront.CheckoutPrices | frontend/js/app.js:157-159 | the request's item price is the cart total, and its total is items plus shipping |
| Storefront.CheckoutAccepted | frontend/js/app.js:150-168 | a checkout from a non-empty well-formed cart with complete shipping details and a known payment method is accepted by the server, as an order of exactly the cart's lines |
| Storefront.BrowserStorage.AddToCart | frontend/js/app.js:239-251 | the stored cart becomes the cart with the product added, the count rises by one, and well-formedness is kept |
| Storefront.BrowserStorage.RemoveFromCart | frontend/js/app.js:71-75 | the stored cart loses exactly that product's lines; count and total drop by its quantity and value |
| Storefront.BrowserStorage.UpdateQuantity | frontend/js/app.js:77-88 | a quantity of zero or less removes the product, a positive one replaces its quantity, and an unknown product changes nothing |
| Storefront.BrowserStorage.ClearCart | frontend/js/app.js:90-93 | the cart key is removed, so the cart reads as empty with total and count zero |
| Storefront.BrowserStorage.Checkout | frontend/js/app.js:139-183 | without a logged-in user nothing is sent. Otherwise the cart request is sent, and the cart is cleared exactly when the server accepts the order |
| Storefront.Wrapped | frontend/js/app.js:294-297 | the wrapped index is always a valid slide index |
| Storefront.StepIsModular | frontend/js/app.js:294-297 | one step forward or back is addition modulo the number of slides |
| Storefront.ForwardWithinRound | frontend/js/app.js:319-323 | fewer than a full round of forward steps adds the step count, wrapping once at the end |
| Storefront.ForwardPeriodic | frontend/js/app.js:319-323 | a full round of automatic steps returns to the same slide |
| Storefront.Slider.ChangeSlide | frontend/js/app.js:285-301 | a valid current index moves by the direction and wraps into range; an out-of-range one fails and changes nothing |
| Storefront.Slider.CurrentSlide | frontend/js/app.js:303-316 | with no slides nothing happens. When the current index is out of range, the first access throws and the index is unchanged. Otherwise the index becomes the target, and showing it fails exactly when the target is out of range |
| Storefront.CategoryLabel | frontend/js/app.js:193-202 | a known key gives its label, which differs from the key; any other key is returned unchanged |
| Storefront.EveryCatalogueKeyLabelled | frontend/js/app.js:193-202 | every category and badge name has a label, and the labels are the five given names |

## Left out

- Password hashing, token signing and verification, and the clock are parameters. The account schema is not part of this model; its validators are the `accepts` parameter.
- Auth.PaddedEmailNeverFound: assumes the account schema applies no setter, such as `trim`, to the address in a query filter, so `findOne` looks up exactly the lower-cased text; the account schema is not part of this model. With such a setter, a padded address would be found at login, and registration's first lookup would catch it before the validators run (this also bears on `Auth.RegisterDecision` and `Auth.RegisterRefusesTakenEmail`).
- The frontend's API wrapper and the seed script are not part of this model. Neither are the client's login, register, logout and product-fetch wrappers, or its rendering and notifications. The routers are modelled only for which routes require an administrator.
- The current-user endpoint (`getMe`) is left out. It only returns the attached account.
- Loading the related user and product documents is left out. A deleted order owner, which makes `getOrder` fail with 500, is not modelled.
- Malformed identifiers: ids are natural numbers, so the invalid-id error paths cannot arise.
- Auth.RegisterDecision: the text of the account validators' messages is a placeholder. `StoreRejectedMessage` (a product failing the schema), `NegativeSkipMessage` and `NoUserMessage` are placeholders too.
- Orders.CreateAcceptsExactly: every schema failure is folded into one invalid-data 400.
- Request bodies and query strings hold only strings, numbers and booleans of the expected kind. Non-numeric prices, pages or limits, and non-array `orderItems`, are not modelled.
- The item identifiers `product`/`productId` are treated as always truthy.
- Lower-casing covers ASCII letters only. Length is counted in characters rather than UTF-16 code units.
- The search text is matched literally; regular-expression metacharacters are not modelled.
- Catalog.Ranked: products that tie under the sort key keep their stored order. The database promises no order for ties.
- Prices are whole numbers and ratings are exact reals; floating point is not modelled.
- `updatedAt` timestamps are not modelled. A client-supplied `_id` or `createdAt` is ignored.
- Catalog.ListProducts: a negative limit is taken as its absolute value, as the database does.
- Catalog.ProductStore.UpdateProduct: the lookup and the update happen as one step. A concurrent delete in between is not modelled.
- Access.ProtectDecision: an empty token is taken never to verify.
- Exceptions thrown by the next handler inside `protect` are not modelled.
- Storefront.CategoryLabel: inherited object keys such as `toString` are treated as unknown keys.
- Storefront.Slider.ChangeSlide: the number of dots is taken to equal the number of slides. The DOM updates are not modelled.
- Storefront.ForwardPeriodic: the five-second timer is modelled only as repeated forward steps.
- Console logging is not modelled.
