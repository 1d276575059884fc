# Escrow marketplace service layer, in Dafny

This project models the service layer of a NestJS/Mongoose escrow marketplace. In that
marketplace, sellers list products, buyers place orders against a product's stock, and
transactions, escrows and disputes are recorded.

Each service is a class. It holds its collection as a `map` from document id to record,
and its methods update that map in place, as the source's `save`, `findByIdAndUpdate` and
`findByIdAndDelete` do. The pure parts are functions, and properties that span several
calls are lemmas. These pure parts are:

- the schema validation on save;
- the update patches;
- `sanitizeUser` and `prepareUserResponse`;
- the phone-number pattern;
- order creation as a function of the products and orders tables.

Modules:

- `Common`: ids, the thrown errors (`NotFound`, `Unauthorized`, `BadRequest`, `Conflict`,
  and the database's `ValidationError`), results, stored documents, `find` by filter, and
  the database's fresh-id source.
- `UserEntity`: the stored user, its role enum and the uniqueness of email and phone.
- `OrderSchema`: the stored order, its default status (a free string, with no enum) and
  its update patch.
- `EscrowSchema`, `DisputeSchema`, `TransactionSchema`: the stored records. Each has its
  status enum, the save-time validation of that required status, and its update patch.
- `Products`, `Orders`, `Users`, `Transactions`, `Escrows`, `Disputes`, `Auth`: the
  services.
- `RegisterDto`: the registration body and its phone rule `^\+234\d{10}$`.

Order creation is specified by `Orders.PlaceOrder`, a function of the two tables.
`Orders.OrdersService.Create` is proved equal to it: it performs the lookup, the buyer
check and the stock check, writes the new stock through the products service, and inserts
the order. Repeated creation is then reasoned about on `PlaceOrder`:

- `n` single-unit orders against stock `s` succeed exactly `min(n, s)` times;
- no sequence of creates drives a stock below zero.

The code does not implement the escrow protocol one might expect from such a
marketplace, and the model follows the code:

- Orders have no status state machine. The order status is a free string (default
  "pending"), and the seller may overwrite it, or any other property (the amount
  included), with anything.
- Creating an order creates no escrow and no transaction.
- Releasing or refunding an escrow is a plain overwrite, so no status is terminal: a
  released escrow can be set to refunded or back to held.
- A transaction may collect any number of disputes.
- Creating an order has no rollback and no atomicity. The model runs one request at a
  time.

## Model

| member | source | states |
|---|---|---|
| UserEntity.RoleName | src/users/entities/user.entity.ts:18-19 | the stored role string is one of the three enum values, and "seller"/"buyer" correspond exactly to those roles |
| UserEntity.InsertKeepsContactsUnique | src/users/users.service.ts:17-27 | inserting a user whose email and phone are both unused keeps every email and every phone unique |
| UserEntity.EmailIdentifiesUser | src/users/entities/user.entity.ts:9-10 | under the unique indexes an email names at most one user |
| OrderSchema.ApplyPatch | src/orders/orders.service.ts:55 | each supplied property overwrites the stored one, each absent one is kept; status and amount are not validated, so the amount can be rewritten |
| EscrowSchema.Validate | src/escrow/schemas/escrow.schema.ts:6-16 | save succeeds exactly when the status is present and one of held/released/refunded; the document is stored as supplied; otherwise a validation error on `status` |
| EscrowSchema.ApplyPatch | src/escrow/escrow.service.ts:26 | supplied properties overwrite, absent ones are kept, any status string may be written |
| DisputeSchema.Validate | src/disputes/schemas/disputes.schema.ts:6-16 | save succeeds exactly when the status is present and one of pending/in_review/resolved/closed; otherwise a validation error on `status` |
| DisputeSchema.ApplyPatch | src/disputes/disputes.service.ts:22 | supplied properties overwrite, absent ones are kept |
| TransactionSchema.Validate | src/transactions/schemas/transactions.schema.ts:6-16 | save succeeds exactly when the status is present and one of pending/completed/disputed/cancelled; otherwise a validation error on `status` |
| TransactionSchema.ApplyPatch | src/transactions/transactions.service.ts:23 | supplied properties overwrite, absent ones are kept |
| Products.ApplyPatch | src/products/products.service.ts:41 | supplied properties overwrite (the seller id included), absent ones are kept |
| Products.StockPatchChangesOnlyStock | src/orders/orders.service.ts:26 | the `{ stock }` body that order creation sends changes the stock and nothing else |
| Products.ProductsService.FindOne | src/products/products.service.ts:28-34 | the stored product exactly when the id is present, otherwise NotFound "Product not found" |
| Products.ProductsService.FindBySeller | src/products/products.service.ts:24-26 | exactly the products whose seller id matches, unchanged |
| Products.ProductsService.Create | src/products/products.service.ts:12-18 | a body naming another seller is refused with Unauthorized and nothing stored; otherwise exactly one product is added under a fresh id and `findOne` returns it |
| Products.ProductsService.Update | src/products/products.service.ts:36-46 | NotFound before the owner check, Unauthorized for a non-owner, both leaving the table unchanged; otherwise the patched product is stored and returned |
| Products.ProductsService.Remove | src/products/products.service.ts:48-54 | the same two refusals; otherwise exactly that product is deleted and `findOne` then gives NotFound |
| Orders.PlaceOrder | src/orders/orders.service.ts:16-28 | NotFound, Unauthorized and BadRequest each iff their condition, in the source's order, with no write on failure; on success amount = price × quantity, seller from the product, status default "pending", stock lowered by exactly the quantity, one order added under a fresh id |
| Orders.OrderingAllStockEmptiesProduct | src/orders/orders.service.ts:21-26 | ordering exactly the remaining stock is accepted and leaves stock 0 |
| Orders.SingleUnitStep | src/orders/orders.service.ts:18-26 | a single-unit order by the buyer succeeds iff stock is positive, and then takes one unit and adds one order |
| Orders.SingleUnitOrdersNeverOversell | src/orders/orders.service.ts:16-28 | `n` successive single-unit orders against stock `s` succeed exactly `min(n, s)` times, leave `s - min(n, s)` in stock, touch no other product and add `min(n, s)` orders |
| Orders.OrdersKeepStockNonNegative | src/orders/orders.service.ts:21-26 | any sequence of creates, by any callers with any quantities, keeps every stock non-negative and the set of products unchanged |
| Orders.OrdersService.Create | src/orders/orders.service.ts:16-28 | the result and both tables after the call are exactly those of `PlaceOrder` on the tables before it; a created order is listed by `findByBuyer` for the caller |
| Orders.OrdersService.FindOne | src/orders/orders.service.ts:42-48 | the stored order exactly when the id is present, otherwise NotFound "Order not found" |
| Orders.OrdersService.FindByBuyer | src/orders/orders.service.ts:34-36 | exactly the orders whose buyer id matches |
| Orders.OrdersService.FindBySeller | src/orders/orders.service.ts:38-40 | exactly the orders whose seller id matches |
| Orders.OrdersService.Update | src/orders/orders.service.ts:50-60 | NotFound, then Unauthorized for anyone but the order's seller, both without change; otherwise the patch is stored and returned; products are untouched |
| Users.Merge | src/users/users.service.ts:46-50 | supplied properties overwrite, absent ones are kept, and the password hash is never changed |
| Users.UsersService.Create | src/users/users.service.ts:14-28 | Conflict iff some stored user has the email or the phone, with nothing stored; otherwise exactly one user holding the hash of the password is added under a fresh id; uniqueness of contacts is preserved |
| Users.UsersService.FindOne | src/users/users.service.ts:30-36 | the stored user exactly when the id is present, otherwise NotFound "User not found" |
| Users.UsersService.FindOneByEmail | src/users/users.service.ts:38-44 | a stored user with that email, and NotFound exactly when no user has it; under the unique email index the user returned is the only one with that email |
| Users.UsersService.Update | src/users/users.service.ts:46-50 | NotFound without change when absent; otherwise the merged user is stored and returned |
| RegisterDto.PhonePattern | src/auth/dto/register.dto.ts:13 | the anchored pattern has fourteen positions |
| RegisterDto.MatchesPointwise | src/auth/dto/register.dto.ts:13 | an anchored single-character pattern matches exactly the strings of its length that match position by position |
| RegisterDto.PhoneShape | src/auth/dto/register.dto.ts:13 | a phone is accepted iff it has fourteen characters, starts with "+234" and ends in ten ASCII digits |
| RegisterDto.ExampleAccepted | src/auth/dto/register.dto.ts:11-13 | the documented example "+2341234567890" is accepted |
| RegisterDto.ExtraCharacterRejected | src/auth/dto/register.dto.ts:13 | one more character before or after an accepted phone makes it rejected |
| RegisterDto.Validate | src/auth/dto/register.dto.ts:11-14 | the body passes unchanged iff the phone matches, otherwise BadRequest with the format message |
| Auth.ToObject | src/auth/auth.service.ts:15 | the plain object of a stored user has exactly the keys `_id`, `email`, `phone`, `password_hash`, `role`, `__v`, plus `business_verification` when the user has one; it holds the user's values, the hash, and version 0 |
| Auth.Sanitize | src/auth/auth.service.ts:14-19 | removes `password_hash` and `__v` and keeps every other property unchanged |
| Auth.PrepareUserResponse | src/auth/auth.service.ts:69-81 | only `_id`, `email`, `phone`, `role` and a truthy `business_verification` are exposed, never the hash or the version key |
| Auth.UserResponseOfStoredUser | src/auth/auth.service.ts:69-81 | a stored user's response never holds the hash, holds the business verification number iff it is non-empty, and is the same whether or not the user was sanitized first |
| Auth.ForwardToUsers | src/auth/auth.service.ts:49-54 | the business verification number reaches the users service for sellers only |
| Auth.AuthService.Issue | src/auth/auth.service.ts:56-66 | both tokens are signed over `{sub, email, role}` of the user, the refresh token with the seven-day lifetime; the response is `prepareUserResponse` of the stored user, so it carries the id, email, phone and role and neither the hash nor the version key |
| Auth.AuthService.ValidateUser | src/auth/auth.service.ts:21-27 | the lookup's NotFound propagates exactly when no user has the email; otherwise the sanitized user object (no hash, no version key) is returned iff the password matches its hash |
| Auth.AuthService.Login | src/auth/auth.service.ts:29-46 | NotFound iff the email is unknown; Unauthorized "Invalid credentials" only for a wrong password; a success, with the claims read from the sanitized user, is the tokens and response of a user with that email whose hash the password matches |
| Auth.AuthService.Register | src/auth/auth.service.ts:48-67 | the users service's Conflict propagates with nothing stored; otherwise exactly one user is added and the tokens and response are issued for it |
| Auth.AuthService.RefreshToken | src/auth/auth.service.ts:83-106 | succeeds iff the token verifies and its subject is the id of a stored user, issuing tokens for that user; every failure is Unauthorized "Invalid refresh token" |
| Auth.AuthService.VerifyToken | src/auth/auth.service.ts:108-114 | the lookup's NotFound for a subject that names no user, otherwise that user's response without the hash |
| Transactions.TransactionsService.FindByUser | src/transactions/transactions.service.ts:17-20 | the role "buyer" lists exactly the user's purchases; any other role string lists exactly the user's sales |
| Transactions.TransactionsService.Create | src/transactions/transactions.service.ts:12-15 | stored under a fresh id iff the schema accepts it, and then listed for its buyer and its seller; a rejected document changes nothing |
| Transactions.TransactionsService.Update | src/transactions/transactions.service.ts:22-28 | NotFound "Transaction not found" without change when absent; otherwise the patch is stored and the updated document returned |
| Transactions.EachPartyListsTheTransaction | src/transactions/transactions.service.ts:17-20 | every stored transaction is listed for its buyer under "buyer" and for its seller under any other role |
| Escrows.EscrowService.FindByTransaction | src/escrow/escrow.service.ts:17-23 | a stored escrow of that transaction, and NotFound "Escrow not found" exactly when there is none |
| Escrows.EscrowService.Create | src/escrow/escrow.service.ts:12-15 | stored under a fresh id iff the schema accepts it; a rejected document changes nothing |
| Escrows.EscrowService.Update | src/escrow/escrow.service.ts:25-31 | NotFound "Escrow not found" without change when absent; otherwise the patch is stored whatever the current status |
| Disputes.DisputesService.FindByTransaction | src/disputes/disputes.service.ts:17-19 | exactly the disputes raised on that transaction |
| Disputes.DisputesService.Create | src/disputes/disputes.service.ts:12-15 | stored under a fresh id iff the schema accepts it, whatever disputes the transaction already has, and then listed for that transaction; a rejected document changes nothing |
| Disputes.DisputesService.Update | src/disputes/disputes.service.ts:21-27 | NotFound "Dispute not found" without change when absent; otherwise the patch is stored and returned |

## Left out

- Persistence is a `map` per collection, and requests run one after another. The
  database's concurrency, the network and the framework's request handling are not part
  of this model.
- Read-then-write races are therefore not modelled. This includes two concurrent order
  creates against one product.
- For the same reason, the "not found after update" branches of the products and orders
  updates cannot be reached in the model.
- `findAll` of products and orders, the controllers, `populate('productId')` and the
  schemas' `timestamps` are not modelled. They add no rule to the services.
- The product schema file is not part of this model. The product's properties are those
  that the products service, the orders service and the products controller use.
- The order, product, transaction, escrow and dispute request DTO files are not part of
  this model. Request bodies are therefore taken as typed but otherwise unchecked. In
  particular, an order quantity of zero or less passes the stock check.
- Mongoose's `required` check on empty strings and on missing non-enumerated fields is not
  modelled. Only the enumerated `status` fields are validated on save. Numbers and dates
  are integers.
- The unique indexes on user email and phone are not modelled as a separate database
  error. `Users.UsersService.Create` checks for both itself. `Users.UsersService.Update`
  does not check them, and the model stores whatever the merge gives.
- A `password` in a user update body is not a schema property and is
  dropped. The stored hash is kept.
- `IsEmail`, `IsString` and `IsPhoneNumber('NG')` from the validation library are not
  modelled. Only the registration body's own phone pattern is.
- bcrypt's `hash` and `compare` and the JWT service's `sign` and `verify` are parameters of
  the services. Their cryptography and the token lifetimes are not modelled. A failing
  `verify` is `None`.
- bcrypt's `hash(password, 10)` draws a random salt, but the model's `hash` is a fixed
  function, so two users with the same password get the same stored hash. No contract
  relies on this.
- Orders.OrdersService.Create: a database failure while saving the order, after the stock
  has been written, is not modelled. In the source that failure leaves the stock lowered
  without an order.
- Ids are taken to be well-formed ObjectIds. For a malformed id, `findById`,
  `findByIdAndUpdate` and `findByIdAndDelete` throw a cast error instead of finding
  nothing. That error path is not modelled: the model answers NotFound for every absent
  id. `refreshToken` is unaffected because it turns every failure into Unauthorized.
  A token subject that is not a string is treated like an absent id.
- Mongo's ObjectId generation is replaced by a fresh string that no document in the
  collection uses. The `__v` version key is always 0.
