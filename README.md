# Grocery store backend: accounts, referrals, orders, stock, returns and carts in Dafny

This project models the business logic of the grocery storefront's Express/Mongoose backend.
Each MongoDB collection is an in-memory map from ids to records, held by a class whose handler
methods change it in place:

- `AccountStore` holds accounts
- `ProductStore` holds products
- `OrderStore` holds orders
- `ReturnStore` holds return requests
- `CartStore` holds carts

A database lookup is a map lookup. A `save()` runs the schema's checks (required, min, max, enum,
maxlength) on the document as the handler left it, then the pre-save hooks, then the write, which a
unique index can refuse. When the schema refuses, the handler fails and the collection is
unchanged. Each store has an invariant, `Valid()`: every record passes its schema and the unique
indexes hold. Every handler preserves it.

The modules follow the backend's files:

| module | file(s) | what it models |
|---|---|---|
| `Accounts` | models/User.js | the account record and its bounds, `addCredits`, `deductCredits`, `canMakePurchase`, `getReferralChain`, the referral-code pre-save loop |
| `Referrals` | controllers/authController.js | `register` (duplicate e-mail, referral-code lookup, level limit) and `processReferralRewards` |
| `Profiles` | controllers/userController.js | `updateUserRole`, the address list, the wishlist |
| `Products` | models/Product.js | `isAvailable`, `reduceStock`, `increaseStock`, price and stock bounds |
| `Orders` | models/Order.js | the order schema, the two pre-save hooks, `addItem`, `removeItem`, `updateItemQuantity`, the unique order number |
| `OrderRules` | routes/orders.js | `orderValidation`, including its `.trim()` sanitizers, and `statusValidation` |
| `Checkout` | controllers/orderController.js | `createOrder`, `updateOrderStatus`, `cancelOrder` (restocking and credit refund) |
| `Returns` | models/Return.js | the return record: enums, bounds, defaults, one timestamp per status |
| `ReturnRules` | routes/returns.js | the checks on a new return request, and the record it becomes |
| `ReturnHandlers` | controllers/returnController.js | `createReturnRequest`, `updateReturnStatus`, `cancelReturnRequest` |
| `Carts` | routes/cartRoutes.js | the add/update, remove and clear handlers |

Three helper modules support them:

- `Common`: ids, `Option`, `Result`, HTTP errors, JavaScript truthiness of an optional string
- `Lists`: `Array.prototype.filter` and `findIndex`
- `Text`: `String.prototype.trim`, decimal rendering, `padStart`

Several inputs become parameters:

- `Date.now()` is a `nat` clock reading.
- `Math.random()` is the value it yields: the drawn number in an order number, the list of referral-code candidates.
- A fresh ObjectId is an `Id` chosen by the caller and not yet in use.
- The requester's id and role come from the authentication middleware.

Money amounts (prices, credits, refunds) are integers in minor units.

Behaviour of the code worth noting:

- `createOrder` neither reserves stock nor deducts credits; it only writes the order. `cancelOrder` still adds every line's quantity back to stock and refunds `credits_used`. Placing and then cancelling an order therefore leaves more stock and more credits than before (`Checkout.CancellationRestores`). An administrator can then set the status back to `pending`, and a second cancellation pays out again.
- `cancelOrder` admits only the owning account, not an administrator. It refuses only `delivered` and `cancelled`.
- `updateOrderStatus` never reads the route's validation result. An unknown status therefore fails in the update's own validators and is answered with 500, not 400. Any status can follow any status.
- `createOrder` sets `total_amount` to the subtotal less the credits, and validation runs before the totals hook. Credits above the subtotal therefore make the total negative, the `min: 0` check refuses the document, and the answer is 500 "Failed to place order" (`Checkout.DraftSchema`, `Checkout.CreditsLeaveTotal`). Otherwise the totals hook overwrites the lowered total, so the stored total is always the subtotal.
- `order_number` is required, and validation runs before the number hook. A new document without a number is therefore refused before the hook could give it one; the hook never changes the number of a document that gets saved (`Orders.OrderStore.Save`). `createOrder` always supplies its own number.
- `createOrder` answers a successful checkout with 200, not 201.
- Return statuses have no order either. Any of the seven can be set from any other, and each stamps only its own time. On `refunded`, an explicit refund amount of 0 is replaced by the return amount.
- A return is checked against the first order line for the product only. Earlier returns of the same line are not counted.

## Model

| member | source | states |
|---|---|---|
| Accounts.ParseRole | backend/models/User.js:41-45 | the role enum accepts exactly "user" and "admin"; a parsed role prints back as the string it came from |
| Accounts.SchemaOk | backend/models/User.js:31-58 | the account schema's bounds: a balance of at least 0, a level of at most 12 |
| Accounts.Credit | backend/models/User.js:184-188 | `addCredits` raises the balance by exactly `amount`, with no sign check; the save fails exactly when the new balance would be negative (schema `min: 0`) |
| Accounts.Debit | backend/models/User.js:191-198 | `deductCredits` throws "Insufficient credits" exactly when the balance is below `amount`; otherwise the balance drops by exactly `amount` and stays non-negative |
| Accounts.DebitUndoesCredit | backend/models/User.js:184-198 | deducting what was just added gives back the account |
| Accounts.CreditUndoesDebit | backend/models/User.js:184-198 | adding back what was just deducted gives back the account |
| Accounts.PurchaseGateMonotone | backend/models/User.js:201-206 | `canMakePurchase` is true without a next-purchase date, and otherwise true exactly when now is at or past it; once true it stays true as time goes on |
| Accounts.CanMakePurchase | backend/models/User.js:201-206 | `canMakePurchase` is true without a next-purchase date, and otherwise exactly when the clock reading is at or past it |
| Accounts.Walk | backend/models/User.js:168-179 | the `getReferralChain` loop from a parent reference: it follows parent links while a reference exists, fewer than 12 hops were taken and the account is found; every account it lists is a stored one |
| Accounts.ReferralChain | backend/models/User.js:164-181 | the chain lists only stored accounts |
| Accounts.WalkShape | backend/models/User.js:168-179 | the walk from a parent reference: entries at consecutive levels, each entry the parent of the one before, stopping at a missing reference or account or at 12 hops |
| Accounts.ReferralChainShape | backend/models/User.js:164-181 | at most 12 entries; entry i has level i + 1; the first is the account's parent and each next one is the previous one's parent; empty without a parent; a short chain ends at a missing parent |
| Accounts.WalkLevels | backend/models/User.js:168-179 | when stored levels follow parent links, the ancestor at chain position i has level top − i |
| Accounts.ChainDistinct | backend/models/User.js:164-181 | when stored levels follow parent links, the chain never revisits an account and never contains the account itself |
| Accounts.Attempts | backend/models/User.js:133-142 | the code loop draws at most 10 candidates and stops after the first one not in use |
| Accounts.GeneratedCode | backend/models/User.js:134-142 | the code the hook stores: the last candidate the loop drew, or the id-derived fallback when that candidate is empty |
| Accounts.FirstUnusedChosen | backend/models/User.js:135-143 | the first unused candidate among the first ten is the code stored, and it is unused |
| Accounts.AllCandidatesUsed | backend/models/User.js:143 | when all ten candidates are in use, the tenth is kept anyway; the id-derived fallback applies only to an empty candidate |
| Accounts.WithCode | backend/models/User.js:130-145 | the hook changes only the referral code, leaves an account with a code untouched, and, given a non-empty id-derived fallback, always leaves a non-empty code |
| Accounts.InsertKeepsStore | backend/models/User.js:31-59 | inserting an account that passes the schema, has a fresh unique code and is linked one level below its parent keeps the collection's invariant |
| Accounts.AccountStore.constructor | backend/models/User.js:4-127 | an empty accounts collection satisfies the invariant |
| Accounts.AccountStore.AddCredits | backend/models/User.js:184-188 | the stored account becomes `Credit` of it, and the new balance is returned; a refused save changes nothing |
| Accounts.AccountStore.DeductCredits | backend/models/User.js:191-198 | the stored account becomes `Debit` of it, and the new balance is returned; a throw changes nothing |
| Accounts.AccountStore.Replace | backend/models/User.js:4-127 | writing back an account that passes its schema and keeps its e-mail, code, parent and level keeps the invariant |
| Accounts.AccountStore.CountReferral | backend/controllers/authController.js:212-213 | `total_referrals` of that account rises by one, nothing else changes |
| Accounts.AccountStore.Create | backend/models/User.js:130-145 | `User.create`: the stored account is the draft with its generated code; a code already in use is refused by the unique index and nothing is stored |
| Accounts.AccountStore.GetReferralChain | backend/models/User.js:164-181 | the loop returns exactly `ReferralChain` of the account |
| Accounts.AccountStore.AssignReferralCode | backend/models/User.js:130-145 | the pre-save loop returns exactly `WithCode` against the codes in use |
| Referrals.Bonus | backend/controllers/authController.js:210-216 | level 1 earns 50; a level equal to the chain length earns 100 only when it is not 1; every other level earns nothing |
| Referrals.RewardOne | backend/controllers/authController.js:209-216 | one loop pass changes only that entry's account and pays nothing to an entry with no bonus |
| Referrals.Rewards | backend/controllers/authController.js:207-217 | the loop over the chain keeps the set of accounts |
| Referrals.RewardsAfterParent | backend/controllers/authController.js:208-217 | past the parent, only the last entry can be paid, and it gets 100 |
| Referrals.RewardsPaid | backend/controllers/authController.js:205-221 | over a chain of distinct accounts: the parent gains exactly 50 and one referral; the farthest ancestor gains 100 when the chain is longer than one; nobody else changes |
| Referrals.RegistrationPays | backend/controllers/authController.js:49-221 | the same payout stated from the stored chain of a newly stored account with a stored parent |
| Referrals.PayBonus | backend/controllers/authController.js:210-216 | the loop body leaves the accounts as `RewardOne` says, or unchanged when its save is refused |
| Referrals.ProcessReferralRewards | backend/controllers/authController.js:205-221 | the loop leaves exactly `Rewards` of the new account's chain; errors are swallowed |
| Referrals.Referrer | backend/controllers/authController.js:32 | the referral code lookup yields the stored account that holds the code |
| Referrals.Draft | backend/controllers/authController.js:28-47 | a new account has a zero balance and the user role; without a code it has no parent and level 0; with a code, the referrer is its parent and its level is the referrer's plus one |
| Referrals.DraftOutcome | backend/controllers/authController.js:25-37 | a used e-mail gets 400 "User already exists with this email"; an unknown code gets 400 "Invalid referral code"; past those two checks the draft is accepted exactly when its level is at most 12, and refused otherwise with 400 "Referral chain limit exceeded"; an accepted draft passes the schema and is linked to its parent |
| Referrals.RegisterOutcome | backend/controllers/authController.js:16-71 | registration fails with the first refusal of the checks; past them it succeeds exactly when the code the hook draws is not in use, and otherwise fails with 500; a success is an account with the new e-mail, a zero balance, a level in 0..12 and an unused non-empty code |
| Referrals.ReferrerUnique | backend/models/User.js:46-50 | under the unique index, a code names exactly one account |
| Referrals.CheckRegistration | backend/controllers/authController.js:25-37 | the handler's checks return exactly `DraftOutcome` |
| Referrals.CreateAndReward | backend/controllers/authController.js:39-49 | the account is stored with its code, and rewards are paid only when it has a parent |
| Referrals.Register | backend/controllers/authController.js:16-71 | `register` answers `RegisterOutcome`; a refusal stores nothing; success stores the account and pays the chain's rewards |
| Profiles.UpdateUserRole | backend/controllers/userController.js:62-81 | a role other than "user" or "admin" gets 400 "Invalid role"; an unknown id returns no account; otherwise only the role changes |
| Profiles.NewAddress | backend/controllers/userController.js:144-163 | the pushed address has the sent fields, with country "India" and `is_default` false when they were not sent |
| Profiles.AddressIds | backend/controllers/userController.js:188 | the ids of an address list, in order, by which `addresses.id(...)` finds an address |
| Profiles.AddAddress | backend/controllers/userController.js:142-173 | a missing line1, city, state or pincode gets 400; an unknown account gets 404; otherwise exactly one address is appended |
| Profiles.UpdatedAddress | backend/controllers/userController.js:193-199 | line1, city, state, pincode and country are overwritten only by a truthy value; line2 and `is_default` by any value sent |
| Profiles.EmptyUpdateKeepsAddress | backend/controllers/userController.js:193-199 | an update that sends nothing leaves the address as it was |
| Profiles.UpdateAddressIdempotent | backend/controllers/userController.js:193-199 | sending the same update twice is sending it once |
| Profiles.UpdateAddress | backend/controllers/userController.js:178-208 | an unknown account or address id gets 404 with nothing changed; otherwise only that address gets the field assignments, and the list keeps its length, order and ids |
| Profiles.WithoutAddress | backend/controllers/userController.js:222 | no address with the id remains, every other address stays, and the kept addresses keep their original order |
| Profiles.DeleteAbsentAddress | backend/controllers/userController.js:222 | deleting an absent id leaves the list unchanged |
| Profiles.DeleteUndoesAdd | backend/controllers/userController.js:165-222 | deleting a newly added address gives back the list before the add |
| Profiles.DeleteAddress | backend/controllers/userController.js:213-230 | an unknown account gets 404; otherwise the list becomes `WithoutAddress` of it |
| Profiles.AddToWishlist | backend/controllers/userController.js:235-262 | no product id gets 400; an unknown account gets 404; a listed product gets 400 "Product already in wishlist"; otherwise exactly one entry is appended |
| Profiles.AddKeepsNoDuplicates | backend/controllers/userController.js:249-254 | the duplicate check keeps every product at most once on the wishlist |
| Profiles.WithoutProduct | backend/controllers/userController.js:276 | no entry for the product remains, every other entry stays, and the kept entries keep their original order |
| Profiles.RemoveFromWishlistIdempotent | backend/controllers/userController.js:276 | removing twice is removing once |
| Profiles.RemoveUndoesAdd | backend/controllers/userController.js:254-276 | removing a newly added product gives back the wishlist before the add |
| Profiles.RemoveFromWishlist | backend/controllers/userController.js:267-284 | an unknown account gets 404; otherwise the wishlist becomes `WithoutProduct` of it |
| Products.ProductSchemaOk | backend/models/Product.js:16-26 | the product schema's bounds: price and stock not negative |
| Products.IsAvailable | backend/models/Product.js:60-62 | `isAvailable(quantity)` holds exactly when the product is active and its stock is at least the quantity; the method's default quantity of 1 is left to the caller |
| Products.AvailableIffReducible | backend/models/Product.js:60-72 | for a product within the schema, `isAvailable(q)` holds exactly when it is active and `reduceStock(q)` would succeed |
| Products.Reduced | backend/models/Product.js:65-72 | stock below the quantity throws "Insufficient stock"; otherwise stock drops by exactly the quantity and stays non-negative |
| Products.Increased | backend/models/Product.js:75-79 | stock rises by exactly the quantity; the save fails exactly when that would leave stock negative |
| Products.IncreaseUndoesReduce | backend/models/Product.js:65-79 | `reduceStock(q)` then `increaseStock(q)` restores the product |
| Products.ReduceUndoesIncrease | backend/models/Product.js:65-79 | `increaseStock(q)` then `reduceStock(q)` restores the product |
| Products.ProductStore.constructor | backend/models/Product.js:16-26 | an empty products collection satisfies the invariant (price and stock non-negative) |
| Products.ProductStore.ReduceStock | backend/models/Product.js:65-72 | the stored product becomes `Reduced` of it and the new stock is returned; a throw changes nothing |
| Products.ProductStore.IncreaseStock | backend/models/Product.js:75-79 | the stored product becomes `Increased` of it and the new stock is returned; a refused save changes nothing |
| Orders.SumTotalsAppend | backend/models/Order.js:108 | the subtotal of two lists of lines is the sum of their subtotals |
| Orders.SumTotalsNonNegative | backend/models/Order.js:105-115 | lines with non-negative totals have a non-negative subtotal |
| Orders.WithTotals | backend/models/Order.js:106-115 | the hook sets `subtotal` to the sum of line totals, whatever was supplied; `total_amount` to the subtotal; `cash_amount` to max(0, total − credits); nothing else changes |
| Orders.WithTotalsIdempotent | backend/models/Order.js:106-115 | running the totals hook twice is running it once |
| Orders.TotalsKeepSchema | backend/models/Order.js:105-115 | the totals hook keeps a document that passed validation within the schema |
| Orders.HookOrderNumber | backend/models/Order.js:99 | a hook-made number starts with "ORD" and has at least 8 characters |
| Orders.CounterPart | backend/models/Order.js:99 | the counter part is at least four digits and reads back as the document count plus one |
| Orders.NumberAfterHook | backend/models/Order.js:96-100 | a number is generated only for a new document without a truthy one; otherwise the number is kept |
| Orders.OrderSchemaOk | backend/models/Order.js:3-82 | the order schema's checks: a truthy number; per line a product name, quantity at least 1, price and total not negative; subtotal, credits, cash and total not negative; the status and payment enums; notes of at most 500 characters |
| Orders.SaveAccepts | backend/models/Order.js:36-40 | a save writes the document exactly when it passes the schema as the handler left it and no other stored order has its number (the unique index on `order_number`) |
| Orders.Grown | backend/models/Order.js:121-122 | the line `addItem` leaves: the quantity grown by the amount added and the total recomputed from the line's own unit price |
| Orders.AddedItem | backend/models/Order.js:118-133 | `addItem`: the first line for the product gains the quantity and a total recomputed from its own unit price; without such a line a new line is appended |
| Orders.AddToExistingLine | backend/models/Order.js:118-123 | `addItem` for a listed product: the first line for it becomes that line with the quantity grown and the total recomputed from its own unit price, every other field unchanged; the length and the other lines stay; the subtotal grows by quantity × that price |
| Orders.AddNewLine | backend/models/Order.js:124-131 | `addItem` for a new product appends exactly one line with total quantity × price, and the subtotal grows by it |
| Orders.AddedItemConsistent | backend/models/Order.js:118-133 | `addItem` keeps every line total equal to quantity × unit price |
| Orders.SumTotalsUpdate | backend/models/Order.js:108 | replacing one line changes the subtotal by the difference of the two line totals |
| Orders.WithoutLines | backend/models/Order.js:136-138 | `removeItem` drops every line for the product and keeps every other line, in the original order |
| Orders.WithoutLinesIdempotent | backend/models/Order.js:136-138 | removing twice is removing once; removing an absent product changes nothing |
| Orders.WithoutLinesConsistent | backend/models/Order.js:136-138 | `removeItem` keeps line totals consistent |
| Orders.WithQuantity | backend/models/Order.js:141-151 | an unknown product changes nothing; a quantity ≤ 0 removes the product's lines; otherwise the first line becomes that line with the new quantity and a recomputed total, every other field unchanged, and the other lines stay |
| Orders.WithQuantityConsistent | backend/models/Order.js:141-151 | `updateItemQuantity` keeps line totals consistent |
| Orders.OrderDocument.constructor | backend/models/Order.js:30-93 | a document holds the given order and knows whether it is new |
| Orders.OrderDocument.AddItem | backend/models/Order.js:118-133 | the document's lines become `AddedItem` of them, nothing else changes |
| Orders.OrderDocument.RemoveItem | backend/models/Order.js:136-138 | the document's lines become `WithoutLines` of them, nothing else changes |
| Orders.OrderDocument.UpdateItemQuantity | backend/models/Order.js:141-151 | the document's lines become `WithQuantity` of them, nothing else changes |
| Orders.OrderDocument.PreSave | backend/models/Order.js:95-115 | the order-number hook, then the totals hook, in that order |
| Orders.OrderStore.constructor | backend/models/Order.js:30-93 | an empty orders collection satisfies the invariant |
| Orders.OrderStore.Save | backend/models/Order.js:30-115 | `save()` validates the document as the handler left it; a document that fails is left untouched and nothing is stored; otherwise the number hook keeps its number, the totals hook recomputes its totals, and the unique index on the number decides; an accepted record is stored as the hooks left it, a refused one changes nothing |
| OrderRules.TrimField | backend/routes/orders.js:30-49 | the `.trim()` sanitizer keeps a field sent or not sent and never makes it longer |
| OrderRules.SanitizedAddress | backend/routes/orders.js:30-49 | the sanitizers leave the country as sent |
| OrderRules.TrimFieldStable | backend/routes/orders.js:30-49 | trimming twice is trimming once, and a length bound holds of the trimmed field exactly when it holds of the original |
| OrderRules.SanitizeStable | backend/routes/orders.js:16-54 | sanitizing is idempotent, and the sanitized address passes the address checks exactly when the sent one does |
| OrderRules.OrderRequestOk | backend/routes/orders.js:16-54 | `orderValidation`: at least one item, each quantity at least 1, credits not negative when sent, the trimmed address fields within their length bounds, notes of at most 500 characters |
| OrderRules.AddressInputOk | backend/routes/orders.js:30-49 | the address checks: street 5 to 200 characters, city and state 2 to 50, postal code 5 to 10, each counted after trimming |
| OrderRules.StatusRequestOk | backend/routes/orders.js:57-61 | `statusValidation`: the status is one of the six order statuses |
| OrderRules.StatusRequestMatchesSchema | backend/routes/orders.js:57-61 | a status passes `statusValidation` exactly when a valid stored order given that status still passes the schema's status enum |
| Checkout.Line | backend/controllers/orderController.js:34-40 | the order line built from one requested item: its product, name, quantity and unit price, with total unit price × quantity |
| Checkout.StoredAddress | backend/models/Order.js:72-78 | the stored delivery address: the sanitized fields, with country "India" when none was sent |
| Checkout.Lines | backend/controllers/orderController.js:34-40 | one line per requested item, in order |
| Checkout.CheckoutNumber | backend/controllers/orderController.js:46 | the handler's number starts with "ORD-" |
| Checkout.Placed | backend/controllers/orderController.js:42-61 | the record a successful checkout stores: the handler's document after the totals hook |
| Checkout.NumberParts | backend/controllers/orderController.js:46 | the handler's number splits into "ORD-", the clock reading's digits, a '-' that is the first after the prefix, and the draw's digits |
| Checkout.PlacedAmounts | backend/controllers/orderController.js:21-61 | the placed order: line totals price × quantity; subtotal their sum; total equal to the subtotal; cash max(0, subtotal − credits); defaults of no credits, cash only, empty notes; status "pending" |
| Checkout.CreditsLeaveTotal | backend/controllers/orderController.js:42-61 | credits above the subtotal make the handler's total negative, so the document fails validation before any hook runs; otherwise the credits change only the recorded credits and the cash part, because the totals hook overwrites the lowered total |
| Checkout.ProductSign | backend/controllers/orderController.js:39 | for a quantity of at least 1, a line total is non-negative exactly when the unit price is |
| Checkout.DraftSchema | backend/controllers/orderController.js:48-61 | a request that passed the route's checks builds a document that passes validation exactly when every line names a product with a non-negative price, the payment method is one of the three, and the credits do not exceed the subtotal |
| Checkout.CheckoutNumberInjective | backend/controllers/orderController.js:46 | different clock readings or draws never give the same number |
| Checkout.CreateOrder | backend/controllers/orderController.js:9-67 | failed request checks get 400 "Validation failed"; otherwise the document is validated as built and its number checked against the unique index, with 500 "Failed to place order" when either refuses; an accepted order is stored as the totals hook leaves it; only the orders collection changes |
| Checkout.UpdateOrderStatus | backend/controllers/orderController.js:133-159 | a status outside the enum gets 500 and changes nothing; a missing order gets 404; otherwise only the status is overwritten, from any status |
| Checkout.CancelRefusal | backend/controllers/orderController.js:201-215 | cancellation is permitted exactly for an existing order of the requester that is neither delivered nor cancelled, with 404, 403 and 400 in that order |
| Checkout.Cancelled | backend/controllers/orderController.js:218-219 | the record the cancellation writes: status "cancelled", totals recomputed by the hook |
| Checkout.CancelSaveAccepted | backend/controllers/orderController.js:218-219 | in a consistent collection the cancellation's save is accepted and changes only the status |
| Checkout.SecondCancelRefused | backend/controllers/orderController.js:213-215 | a cancelled order is refused a second cancellation: 400 for its owner, 403 for anyone else |
| Checkout.Restock | backend/controllers/orderController.js:222-227 | the restocking loop keeps the set of products |
| Checkout.RestockAdds | backend/controllers/orderController.js:222-227 | over valid products, restocking succeeds and each stored product gains the total quantity of its lines; missing products are skipped |
| Checkout.QuantityFor | backend/controllers/orderController.js:222-227 | the total quantity an order's lines hold of one product, which the restocking loop adds back |
| Checkout.RestoreStock | backend/controllers/orderController.js:222-227 | the loop leaves exactly `Restock` of the lines |
| Checkout.Refund | backend/controllers/orderController.js:230-233 | no refund when no credits were used; otherwise `addCredits` on the owner, failing when the owner is gone or the credit is refused |
| Checkout.RefundPays | backend/controllers/orderController.js:230-233 | credits used > 0 are added to an existing owner's balance exactly; otherwise nothing changes |
| Checkout.RefundCredits | backend/controllers/orderController.js:230-233 | the refund step leaves exactly `Refund`, or nothing changed when it throws |
| Checkout.CancelOrder | backend/controllers/orderController.js:199-244 | a refusal changes nothing; otherwise the status save, then the restocking, then the refund, with 500 and the earlier writes kept when a step throws |
| Checkout.CancellationRestores | backend/controllers/orderController.js:199-244 | in consistent collections a permitted cancellation succeeds: status "cancelled", each stored product regains its quantities, the owner gets back exactly the credits used |
| Returns.ReturnStore.constructor | backend/models/Return.js:3-102 | an empty returns collection satisfies the invariant |
| Returns.ReturnStore.Save | backend/models/Return.js:3-102 | the schema (quantity ≥ 1, reason and status enums, texts ≤ 500, amounts ≥ 0) decides whether the record is stored |
| Returns.ReturnSchemaOk | backend/models/Return.js:3-100 | the return schema's checks: a product name, quantity at least 1, the reason and status enums, description and notes of at most 500 characters, return and refund amounts not negative |
| ReturnRules.NewReturnSchema | backend/routes/returns.js:20-34 | a request that passed the route's checks is stored exactly when its trimmed description fits 500 characters |
| ReturnRules.NewReturnDefaults | backend/models/Return.js:52-73 | a new return starts as "requested" with refund 0 and only its request time stamped |
| ReturnRules.ReturnRequestOk | backend/routes/returns.js:20-34 | the route's checks: both ids sent, a product name not blank after trimming, quantity at least 1, one of the eight reasons, a return amount not negative |
| ReturnRules.NewReturn | backend/controllers/returnController.js:36-45 | the record `new Return(...)` builds: the trimmed product name and description, status "requested", refund 0, the request time stamped |
| ReturnHandlers.AcceptedReturnFits | backend/controllers/returnController.js:6-34 | an accepted request passed the route's checks, is about the requester's own order, and asks for no more than the first matching line's quantity |
| ReturnHandlers.FirstLineDecides | backend/controllers/returnController.js:26-34 | a quantity above the first line's is refused even when a later line for the product has enough |
| ReturnHandlers.CreateRefusal | backend/controllers/returnController.js:6-34 | the refusals in the handler's order: 400 for failed route checks, 403 for a missing or foreign order, 400 for a product without a line, 400 for a quantity above the first line's |
| ReturnHandlers.CreateReturnRequest | backend/controllers/returnController.js:6-59 | refusals in order (400 validation, 403 foreign or missing order, 400 product not in order, 400 quantity too large) change nothing; otherwise the new return is stored, or 500 when the schema refuses |
| ReturnHandlers.UpdateStampsOnlyStatus | backend/controllers/returnController.js:175-201 | an update leaves what the buyer asked for alone, sets the status, and stamps only that status's time |
| ReturnHandlers.RefundAmountRule | backend/controllers/returnController.js:176-199 | on "refunded", a falsy refund amount, an explicit 0 included, becomes the return amount |
| ReturnHandlers.OtherStatusRefundAmount | backend/controllers/returnController.js:178 | other statuses take the refund amount as sent, 0 included, or keep the stored one |
| ReturnHandlers.StatusUpdated | backend/controllers/returnController.js:175-199 | the administrator's changes in the handler's order: the status, truthy notes, a sent refund amount, a truthy tracking number, the new status's own timestamp, and on "refunded" a zero refund amount replaced by the return amount |
| ReturnHandlers.UpdateAccepted | backend/controllers/returnController.js:170-203 | from a valid record any of the seven statuses is saved, whatever the current one |
| ReturnHandlers.UpdateReturnStatus | backend/controllers/returnController.js:160-214 | 404 for a missing return, then 400 "Invalid status" before any change; otherwise `StatusUpdated` is saved, or 500 when the schema refuses |
| ReturnHandlers.CancelRefusal | backend/controllers/returnController.js:222-235 | cancellation is permitted exactly for an existing return, asked by its owner or an administrator, in "requested" or "approved" |
| ReturnHandlers.SecondCancelRefused | backend/controllers/returnController.js:233-235 | a cancelled return cannot be cancelled again, by anyone |
| ReturnHandlers.CancelReturnRequest | backend/controllers/returnController.js:217-249 | a refusal changes nothing; otherwise the status becomes "cancelled" and nothing else changes; a permitted cancellation always succeeds on a valid collection |
| Carts.Upserted | backend/routes/cartRoutes.js:23-28 | a listed product keeps the cart's length; a new one is appended as one line |
| Carts.UpsertEffect | backend/routes/cartRoutes.js:23-28 | after an add the product sits on one line with exactly the quantity sent (set, not summed), every other line stays, and no product is listed twice |
| Carts.UpsertIdempotent | backend/routes/cartRoutes.js:23-28 | sending the same line twice is sending it once |
| Carts.WithoutProduct | backend/routes/cartRoutes.js:44 | no line for the product remains, every other line stays, and the kept lines keep their original order |
| Carts.RemoveUndoesAdd | backend/routes/cartRoutes.js:23-44 | removing a newly added product gives back the cart |
| Carts.FilterKeepsDistinct | backend/routes/cartRoutes.js:44 | removal keeps every product on at most one line |
| Carts.CartStore.constructor | backend/routes/cartRoutes.js:17-65 | an empty carts collection satisfies the invariant |
| Carts.CartStore.Items | backend/routes/cartRoutes.js:20-21 | a user without a cart has an empty list of lines |
| Carts.CartStore.Add | backend/routes/cartRoutes.js:17-35 | a missing cart is created empty, then the line is upserted; only that user's cart changes |
| Carts.CartStore.Remove | backend/routes/cartRoutes.js:38-51 | a missing cart answers with no lines and is not created; otherwise the product's lines are filtered out |
| Carts.CartStore.Clear | backend/routes/cartRoutes.js:54-65 | a missing cart answers with no lines and is not created; otherwise the cart is emptied |
| Lists.FirstIndex | backend/models/Order.js:119 | `find`/`findIndex`: the index of the first matching element, or none when nothing matches |
| Lists.FilterOrder | backend/routes/cartRoutes.js:44 | `filter` keeps exactly the elements that pass the test, at strictly increasing positions of the original list, so in their original order |
| Text.Trim | backend/routes/orders.js:32 | the result is the slice of the string between a leading and a trailing run of white space, and it neither starts nor ends with white space, so both runs are the longest ones |
| Text.TrimIdempotent | backend/routes/orders.js:32 | trimming twice is trimming once |
| Text.Decimal | backend/models/Order.js:99 | `toString()` of a natural number: at least one character, only digits, no leading zero unless it is the only digit |
| Text.DecimalValue | backend/models/Order.js:99 | `toString()` of a number gives digits that read back as the number |
| Text.DecimalInjective | backend/controllers/orderController.js:46 | different numbers print differently |
| Text.PadStart | backend/models/Order.js:99 | `padStart(width, fill)`: the string keeps its characters at the end, is as long as the width or its own length when longer, and is filled in front with the fill character |
| Text.ZeroPadValue | backend/models/Order.js:99 | `padStart` with '0' gives at least the width and keeps the value |

## Left out

- `authController.register` is not mounted by the live routes. The `/register` route in routes/auth.js creates accounts without referral handling. That route is not modelled. The controller's version is, because it holds the referral rule.
- `register` stores the name, contact and password. These are not modelled, and neither are their schema checks (required, minimum length) or the password hashing hook, which relies on bcrypt. The e-mail's lower-casing setter and format check are left out as well.
- `login`, `getMe`, `updateProfile` and `deleteUser` are left out. So are the read-only endpoints (`getUserOrders`, `getOrder`, `getAllOrders`, the return listings, the address and wishlist getters). They are store queries, with populate, sort and limit, plus JWT and bcrypt handling.
- `setNextPurchaseDate` is left out because it is calendar arithmetic. `canMakePurchase` takes the clock as a parameter.
- The `description` argument of `addCredits` and `deductCredits` is ignored by the source as well.
- Timestamps are `nat` clock readings. `updated_at` and `created_at` are not recorded. The return's timestamp fields are a map from status to time.
- Prices, credits and amounts are integers in minor units. The source uses JavaScript floats, and `credits_to_use` may be fractional.
- String lengths are counted in characters of `seq<char>`. JavaScript counts UTF-16 code units.
- ObjectId syntax (`isMongoId`) and the CastError path of `updateOrderStatus` are not modelled, because ids are abstract naturals. A malformed id is treated like a missing one.
- The Cart schema (backend/models/Cart.js) is not part of this model. A cart save is therefore never refused.
- The `populate` calls after saves are not modelled. They only shape the response.
- Concurrency is not modelled. Each handler runs as one sequential step, with no interleaving between its awaits. The handlers that write several collections (`cancelOrder`, `register`) keep what was already written when a later step throws, as the source does.
- `Accounts.Walk` and `Accounts.ReferralChain` model each lookup as a map lookup. A referrer missing from the collection ends the walk, as in the source.
- `Checkout.UpdateOrderStatus`: a request without a status (undefined) is not modelled; the status is a string.
- `Checkout.CreateOrder`: the handler's own check for a missing or empty item list (orderController.js:29-31) is not reachable after the route's check, so it is not modelled separately.
- `Profiles.UpdateUserRole`: the response omits the password hash; the model returns the whole account.
