# xopunmart backend: a Dafny model of its business core

This project models the decision logic and state updates of the xopunmart
backend. That backend is an Express and MongoDB server for a local
marketplace, where vendors sell, customers order and riders deliver.

- **Dispatch** (`dispatch.dfy`). An order is offered to the nearest online,
  available rider who has a location and is not excluded. If no such rider
  exists, a "no riders" state is recorded. A sweep re-runs the assignment for
  every order that is still waiting for a rider.
- **Products** (`products.dfy`):
  - the store-hours parser and the open-store filter of the product listing;
  - the validation and defaults of a new product;
  - the approval update.
- **Cart** (`cart.dfy`): merge-or-append on add, update, remove, clear, and the
  priced read with its total.
- **Orders** (`orders.dfy`):
  - checkout, which splits the cart into one order per vendor;
  - the status update, which credits the vendor's net share, minus a 10%
    commission, when an order is completed.
- **Coupons** (`coupons.dfy`): creation with defaults, application with the
  expiry, minimum-order and cap rules, and deletion.
- **Stats** (`stats.dfy`):
  - the one-pass aggregation of the admin dashboard: counts, revenue, loss,
    trend, daily series and recent orders;
  - the vendor summary.
- **Wallet** (`wallet.dfy`): withdrawals checked against the balance, and
  payment methods with an owner-scoped delete. The withdrawal applies the
  corrected amount checks of the first Findings row; the checks as written are
  modelled beside them.
- **Auth** (`auth.dfy`): signup normalisation (role, status and categories) and
  the login status gate.
- **Rider balance recomputation** (`recalc.dfy`). Test transactions are removed.
  Every completed order of every rider is credited once. Each rider's stored
  balance is then overwritten with earnings minus pending and processed
  withdrawals. Orders are matched to riders by the corrected rule of the second
  Findings row; the rule as written is modelled beside it.

Shared modules:
- `common.dfy`: optional fields, JavaScript truthiness and `||` defaults,
  ObjectId parsing, HTTP errors, and upper-casing of ASCII letters.
- `sorting.dfy`: the stable sort that `Array.prototype.sort` performs.
- `sequences.dfy`: filter-then-map.

How the model is put together:
- A collection is a Dafny sequence in insertion order, which is the order
  `find`, `findOne` and `deleteOne` scan. Where a collection is keyed by id, it
  is a map.
- A handler that changes the database is a method of a store class whose fields
  are the collections it touches. Each method states the whole new state.
- Decision logic is a function, with lemmas that state the rules the handler
  promises.

Some things become parameters rather than being computed:
- the clock and the calendar fields derived from it;
- inserted ids;
- bcrypt hashes, and the password check itself;
- the haversine distance.

## Model

| member | source | states |
|---|---|---|
| Common.ObjectIdOf | routes/coupons.js:128 | `new ObjectId(s)` succeeds exactly on 24 hexadecimal digits, and yields the lower-case canonical string |
| Common.ObjectIdOfCanonical | routes/wallet.js:26 | parsing a canonical id again gives the same id |
| Common.ToUpper | routes/coupons.js:27 | ASCII upper-casing: keeps the length, leaves no letter a-z, and changes nothing but the case of a-z; letters outside ASCII are left as they are, unlike `toUpperCase` (see Left out) |
| Common.ToUpperIdempotent | routes/coupons.js:76 | upper-casing twice is upper-casing once |
| Common.OrElse | routes/orders.js:48 | definition, with no contract of its own: `s \|\| fallback` on a string field; the contracts that use it state its cases |
| Common.NumberOrZero | routes/stats.js:58 | definition, with no contract of its own: `x \|\| 0` on a numeric field |
| Sorting.SortBy | utils/orderAssignment.js:51 | the sort returns a permutation of its input |
| Sorting.SortBySorted | utils/orderAssignment.js:51 | under a total preorder, the sorted sequence is ordered by the comparator |
| Sorting.SortByHead | utils/orderAssignment.js:52 | the first element after sorting is the head of the input exactly when the head is no worse than the best of the rest, so a tie for first keeps the earlier element first |
| Sorting.StringLeIsTotalPreorder | routes/stats.js:99 | `sort()` on strings uses a total preorder: lexicographic order |
| Sorting.StringLeAntisymmetric | routes/stats.js:99 | two strings each ordered before the other are equal |
| Sorting.SortByKeepsDistinct | routes/stats.js:99 | sorting distinct keys leaves them distinct |
| Sorting.SortedPrefixIsBest | routes/stats.js:105-109 | taking the first n after sorting keeps the best n: nothing left out is better than anything kept |
| Sequences.FilterMapKeepsOrder | routes/products.js:91-114 | filter-then-map yields exactly the kept elements, each once and in their original order |
| Sequences.FilterMapConcat | routes/products.js:91 | filtering a concatenation filters each part |
| Dispatch.CalculateDistance | utils/geo.js:7-10 | definition, with no contract of its own: Infinity when either coordinate pair is missing or falsy, otherwise the haversine value; Candidates and NearestIsEarliestClosest state what it decides |
| Dispatch.DistLeTotal | utils/orderAssignment.js:51 | any two distances are comparable under the sort's comparator |
| Dispatch.DistLeTransitive | utils/orderAssignment.js:51 | the comparator is transitive; Infinity ties with Infinity |
| Dispatch.CloserIsTotalPreorder | utils/orderAssignment.js:51 | ranking riders by distance to the vendor is a total preorder |
| Dispatch.ParseExclusions | utils/orderAssignment.js:21 | the exclusion list parses exactly when every id is an ObjectId string, and then each id maps to its ObjectId |
| Dispatch.Candidates | utils/orderAssignment.js:17-25 | the candidates are exactly the users with role 'rider' who are online, available, not excluded, and have both coordinates |
| Dispatch.NearestIsEarliestClosest | utils/orderAssignment.js:45-52 | the rider picked is a candidate no farther than any candidate, and every candidate listed before it is strictly farther |
| Dispatch.Assignment | utils/orderAssignment.js:12-57 | definition, with no contract of its own: the outcome of one assignment attempt; AssignmentOutcomes and OfferedRiderIsEarliestNearest state it |
| Dispatch.AssignmentOutcomes | utils/orderAssignment.js:12-42 | the attempt fails iff some exclusion id is not an ObjectId, finds no rider iff no user is eligible, and otherwise offers the order |
| Dispatch.ExcludedIffParsed | utils/orderAssignment.js:21 | a rider is excluded by the parsed ids iff some exclusion string parses to its `_id` |
| Dispatch.OfferedRiderIsEarliestNearest | utils/orderAssignment.js:45-57 | the offered rider is eligible, is never one an exclusion id names, and is the earliest nearest eligible rider |
| Dispatch.OfferedId | utils/orderAssignment.js:57 | definition, with no contract of its own: `firebaseUid \|\| _id.toString()`; DispatchStore.AssignOrderToNearestRider writes it through Apply |
| Dispatch.ApplyTouchesOnlyDispatchFields | utils/orderAssignment.js:29-69 | assignment writes only visibleToRiderId, status and assignmentStatus, with the no-riders and assigned values |
| Dispatch.PendingIds | utils/orderAssignment.js:132-136 | the sweep's query finds exactly the orders with status pending, preparing or ready and with no rider and no offer |
| Dispatch.PendingIdsDistinct | utils/orderAssignment.js:132-136 | each awaiting order is found once |
| Dispatch.SweepRespectsRejections | utils/orderAssignment.js:140-147 | the sweep leaves every order that is not awaiting a rider, or has no vendor location, unchanged; the others get the outcome, never offered to a rider on their own rejection list |
| Dispatch.SweepAll | utils/orderAssignment.js:128-151 | definition, with no contract of its own: the orders after a sweep; SweepRespectsRejections and SweepIdempotent state it |
| Dispatch.SweepIdempotent | utils/orderAssignment.js:128-151 | with the same rider population, a second sweep changes nothing |
| Dispatch.DispatchStore.AssignOrderToNearestRider | utils/orderAssignment.js:12-121 | the outcome follows from the riders alone and is written on the one order named; no rider record changes |
| Dispatch.DispatchStore.CheckAndAssignPendingOrders | utils/orderAssignment.js:128-151 | the order map after the loop is the sweep applied to the map as it was when the loop started |
| Dispatch.DispatchStore.SweepOne | utils/orderAssignment.js:140-147 | one turn of the sweep assigns the next awaiting order from the snapshot and leaves every other order as it stood |
| Dispatch.DispatchStore.RejectAndReassign | scripts/verify_assignment.js:101-105 | the rejecting rider is appended to the rejection list, and the order is assigned again with that list excluded |
| Dispatch.ScriptOffersNearerRiderFirst | scripts/verify_assignment.js:16-99 | in the integration scenario, the nearer rider is offered the order first, under its `_id` |
| Dispatch.ScriptOffersOtherRiderAfterRejection | scripts/verify_assignment.js:101-118 | once the nearer rider has rejected the order, the other rider is offered it |
| Products.ParseInt | routes/products.js:82-83 | definition, with no contract of its own: `parseInt(s, 10)` skipping JavaScript whitespace, then reading a sign and the longest run of digits |
| Products.ParseIntLeadingDigits | routes/products.js:82-83 | the leading digits are read and whatever follows a non-digit is ignored, so "09" is 9 and "12abc" is 12 |
| Products.ParseIntNegative | routes/products.js:82-83 | a minus sign before the digits negates their value |
| Products.ParseIntSkipsWhitespace | routes/products.js:82-83 | leading whitespace of every kind JavaScript recognises (no-break space, byte order mark, Zs separators, line terminators included) does not change the value read |
| Products.ParseIntNoBreakSpaceExample | routes/products.js:82 | an hours part "\u00A009" reads as 9 |
| Products.ParseTime | routes/products.js:79-87 | definition, with no contract of its own: `parseTime`; ParseTimeOfReading and TwelveHourClock state it |
| Products.ParseTimeOfReading | routes/products.js:79-87 | a reading "HH:MM modifier" parses to the clock minutes of its hours and minutes, with the modifier applied |
| Products.TwelveHourClock | routes/products.js:84-86 | a well-formed 12-hour reading lands in the day, AM readings are before noon, and distinct readings give distinct minutes |
| Products.ParseTimeOpeningExample | routes/products.js:78-87 | "09:00 AM" is 540 minutes |
| Products.ParseTimeClosingExample | routes/products.js:78-87 | "10:00 PM" is 1320 minutes |
| Products.ParseTimeMidnightExample | routes/products.js:84 | "12:30 AM" is 30 minutes |
| Products.IsShopOpen | routes/products.js:91-109 | definition, with no contract of its own: the open-store test; IsShopOpenRules states it |
| Products.IsShopOpenRules | routes/products.js:91-109 | open with no timings or no entry for today; closed on 'Closed'; otherwise open iff start ≤ now ≤ end, inclusive |
| Products.OvernightWindowNeverOpen | routes/products.js:104-106 | a window that ends before it starts keeps no product at any time |
| Products.ListOpenProductsKeepsOrder | routes/products.js:91-114 | the listing holds exactly the products of open stores, each once and in order, with the vendor replaced by its name and id |
| Products.CreateProduct | routes/products.js:142-188 | every refusal is a 400: missing name, price or vendorId, a vendorId the ObjectId constructor rejects, or a category outside the vendor's registered ones; success exactly otherwise, with the defaults stock 0, unit 'pcs', threshold 10, status 'pending', and availability 'in-stock' iff stock > 0 |
| Products.SetApproval | routes/products.js:215-243 | only 'pending', 'approved' and 'rejected' are accepted (400 otherwise); an unknown product is 404; only approvalStatus changes |
| Cart.FindIndex | routes/cart.js:74 | the first position that holds the product, or -1 when there is none |
| Cart.AddQuantity | routes/cart.js:61 | definition, with no contract of its own: `parseInt(quantity) \|\| 1` |
| Cart.InProductIds | routes/cart.js:74-76 | a product is in the cart iff some line holds it iff `findIndex` finds it |
| Cart.AddLine | routes/cart.js:74-80 | definition, with no contract of its own: the merge-or-append of an add; AddLineExisting, AddLineNew and AddLineKeepsUnique state it |
| Cart.AddLineExisting | routes/cart.js:74-77 | adding a product already in the cart raises the quantity of its first line by qty and changes nothing else |
| Cart.AddLineNew | routes/cart.js:78-80 | adding a new product appends exactly one line `{productId, qty}` |
| Cart.AddLineKeepsUnique | routes/cart.js:74-80 | adding keeps the product ids of a cart distinct, and afterwards the product is in the cart |
| Cart.UpdateLine | routes/cart.js:104-114 | definition, with no contract of its own: the quantity update; UpdateLineKeepsProducts states it |
| Cart.UpdateLineKeepsProducts | routes/cart.js:104-114 | update keeps the length and the product ids, sets the first line holding the product to quantity qty and leaves every other line as it was; qty < 1 is not rejected, and an absent product changes nothing |
| Cart.RemoveLines | routes/cart.js:130-136 | definition, with no contract of its own: the `$pull`; RemoveLinesKeepsOthers and RemoveUndoesAdd state it |
| Cart.RemoveLinesKeepsOthers | routes/cart.js:130-136 | remove drops every line holding the product and keeps the others, in order |
| Cart.RemoveUndoesAdd | routes/cart.js:56-144 | removing a product just added to a cart that did not hold it gives the cart back |
| Cart.CartLinesConcat | routes/cart.js:25-46 | the read and its total distribute over concatenation |
| Cart.MissingProductIgnored | routes/cart.js:26-33 | an item whose product is missing, or whose id is not an ObjectId, changes neither the lines nor the total |
| Cart.FoundProductListed | routes/cart.js:33-45 | an item whose product exists contributes its line, priced at `(parseFloat(price) \|\| 0) * quantity` |
| Cart.CartTotalIsLinesTotal | routes/cart.js:22-48 | the returned total is the sum of the amounts of the returned lines |
| Cart.CartStore.Add | routes/cart.js:56-96 | 400 with a missing field; otherwise the user's cart becomes the merged list |
| Cart.CartStore.Update | routes/cart.js:99-122 | 400 with a missing field; otherwise only the first matching line's quantity is set |
| Cart.CartStore.Remove | routes/cart.js:125-144 | 400 with a missing field; otherwise every line of the product is pulled |
| Cart.CartStore.Clear | routes/cart.js:147-163 | 400 without a user; otherwise an existing cart is emptied |
| Cart.CartStore.Read | routes/cart.js:10-53 | returns the priced lines and their total, and the total is the sum of the lines |
| Orders.LinesErrPersists | routes/orders.js:25-27 | once an item has an invalid product id, the whole checkout throws |
| Orders.LinesErrIffInvalidId | routes/orders.js:25-27 | the checkout fails with 500 exactly when some item's product id is not an ObjectId |
| Orders.VendorsOfMembers | routes/orders.js:39-54 | the vendors of a checkout are exactly the vendors of its lines, each once |
| Orders.VendorTotalsAddUp | routes/orders.js:41-58 | the per-vendor totals add up to the total of all lines |
| Orders.GroupsSnoc | routes/orders.js:41-57 | one turn of the grouping loop appends the line to its vendor's entry and adds its amount, creating the entry when the vendor is new |
| Orders.DraftsHaveDistinctVendors | routes/orders.js:68-74 | checkout creates one order per distinct vendor |
| Orders.DraftsCoverLines | routes/orders.js:39-56 | every line lands in the order of its product's vendor |
| Orders.DraftIsVendorShare | routes/orders.js:41-57 | each order holds only its own vendor's lines, starts 'pending', has payment method defaulting to 'COD', and is worth the sum of its lines |
| Orders.PushLine | routes/orders.js:41-57 | one turn of the loop, as a method: the vendor's entry is created if needed, then extended by the line |
| Orders.SplitByVendor | routes/orders.js:22-62 | 500 on an invalid product id, 400 when no product is left, otherwise the per-vendor orders |
| Orders.Commission | routes/orders.js:264-266 | the commission is 10% of the total and lies between 0 and a non-negative total |
| Orders.NetAmount | routes/orders.js:267 | net plus commission is the total; net is 90% of it |
| Orders.LinesFewerThanItems | routes/orders.js:25-37 | no more lines than cart items |
| Orders.VendorsFewerThanLines | routes/orders.js:39-54 | no more vendors than lines |
| Orders.DraftsFewerThanItems | routes/orders.js:25-74 | a checkout creates at most one order per cart item |
| Orders.OrderStore.PlaceOrder | routes/orders.js:7-134 | 400 without a user or address, and 400 on an empty cart; on success the per-vendor orders are inserted and the cart is emptied |
| Orders.OrderStore.InsertOrders | routes/orders.js:68-74 | each created order is stored under its new id |
| Orders.OrderStore.UpdateStatus | routes/orders.js:242-296 | 400 without a status, 500 on a bad id, 404 on an unknown order, and success on a filled status for an existing order; then the status is set and, on 'completed' with a payment method other than COD_UNPAID, the vendor's wallet gains the net amount and a credit is recorded, on every repeat too |
| Coupons.CreateCoupon | routes/coupons.js:18-45 | 400 iff the code or description is missing; the code is stored upper-cased, the type is the one sent or 'percentage', unparsable or zero numbers become 0, and the coupon is active |
| Coupons.FindActive | routes/coupons.js:75-78 | the first active coupon with exactly that code |
| Coupons.RawDiscount | routes/coupons.js:97-102 | definition, with no contract of its own: the discount before the cap; ApplyOutcome and DiscountWithinCart state it |
| Coupons.Apply | routes/coupons.js:67-122 | 400 without a code, 404 when no active coupon matches, and the discount never exceeds the cart total |
| Coupons.ApplyOutcome | routes/coupons.js:84-109 | the expiry check, then the minimum-order check, then the percentage or fixed discount capped at the cart total |
| Coupons.DiscountWithinCart | routes/coupons.js:96-109 | for a non-negative cart total and non-negative coupon values, the discount lies between 0 and the cart total |
| Coupons.ApplyIgnoresCase | routes/coupons.js:75-78 | a code in any spelling is answered as its upper-cased form |
| Coupons.CreatedCouponApplies | routes/coupons.js:26-78 | a newly created coupon is found by its code in any case, and with no expiry and no minimum it applies |
| Coupons.FirstWithId | routes/coupons.js:128 | the first coupon with that id, or none iff no coupon has it |
| Coupons.Delete | routes/coupons.js:125-139 | 500 on a bad id, 404 iff no coupon has the id; otherwise exactly one coupon is removed and the others are kept |
| Coupons.DeleteRemovesCoupon | routes/coupons.js:128-131 | with distinct ids, the deleted coupon is gone |
| Stats.CountsSnoc | routes/stats.js:61 | a known status gains one in `orderCounts`, and any other status is ignored |
| Stats.DayKeysExact | routes/stats.js:80-83 | the day keys are exactly the keys of the daily map, each once |
| Stats.DailyMapIsDaySum | routes/stats.js:67-83 | a day is in the map iff some non-cancelled order of the window falls on it, and its value is their sum |
| Stats.DailySeriesAscending | routes/stats.js:99-102 | the daily series lists each day once, in ascending key order |
| Stats.DailySeriesTotals | routes/stats.js:99-102 | each entry of the series carries that day's revenue |
| Stats.DailySeriesDays | routes/stats.js:67-102 | a day is in the series iff some non-cancelled order of the last seven days was created on it |
| Stats.DailySeries | routes/stats.js:99-102 | definition, with no contract of its own: the sorted daily series; DailySeriesAscending, DailySeriesTotals and DailySeriesDays state it |
| Stats.CountOrder | routes/stats.js:57-64 | the counting step for one order extends the counters over the orders seen |
| Stats.EarnOrder | routes/stats.js:66-87 | the revenue step for one order extends the revenue, loss and monthly sums |
| Stats.BookDay | routes/stats.js:79-83 | the daily step for one order extends the daily map and its keys |
| Stats.ComputeDashboard | routes/stats.js:8-144 | every figure of the dashboard equals its specification over all orders |
| Stats.RevenueStep | routes/stats.js:67-68 | one more order adds its amount to the revenue iff it is not cancelled |
| Stats.RevenuePartition | routes/stats.js:66-87 | revenue plus loss is the sum of every order's amount |
| Stats.ActiveIsAcceptedPlusOutForDelivery | routes/stats.js:64 | active deliveries are the accepted orders plus those out for delivery |
| Stats.MissingStatusIsPending | routes/stats.js:57-63 | an order with no status counts as pending |
| Stats.UnknownStatusNotCounted | routes/stats.js:61 | an unknown status leaves `orderCounts` unchanged |
| Stats.KnownCountsAtMostOrders | routes/stats.js:43-61 | the counted statuses never outnumber the orders |
| Stats.TrendRules | routes/stats.js:91-96 | 100 or 0 when last month earned nothing, otherwise the change in percent |
| Stats.Trend | routes/stats.js:91-96 | definition, with no contract of its own: the month-on-month trend; TrendRules states it |
| Stats.RecentAreNewest | routes/stats.js:105-109 | at most ten orders, all from the input, newest first, and none left out is newer than one kept |
| Stats.Recent | routes/stats.js:105-109 | definition, with no contract of its own: the ten newest orders; RecentAreNewest states it |
| Stats.TallyVendorOrder | routes/stats.js:166-180 | the vendor step for one order extends the tallies over the orders seen |
| Stats.ComputeVendorSummary | routes/stats.js:147-197 | 400 without a vendor id, 500 on an id that is not an ObjectId, otherwise the tallies over the vendor's orders and its product count |
| Stats.CancelledEarnsNothingToday | routes/stats.js:170-175 | a cancelled order adds no revenue today but counts as one of today's orders |
| Stats.VendorPendingIgnoresDate | routes/stats.js:177-179 | the vendor's pending count does not depend on the date |
| Stats.VendorOrdersAreTheVendors | routes/stats.js:155-157 | only the vendor's orders are tallied, in order |
| Wallet.BalanceOf | routes/wallet.js:38 | definition, with no contract of its own: `walletBalance \|\| 0` |
| Wallet.Balance | routes/wallet.js:24-38 | 500 on a bad id, 404 on an unknown user, otherwise the balance |
| Wallet.GateAsWritten | routes/wallet.js:65-80 | definition, with no contract of its own: the amount checks as written, comparing through `Number` and debiting through `parseFloat`; TextAmountOverdraws and GateAgreesOnNumbers state it |
| Wallet.TextAmountOverdraws | routes/wallet.js:65-80 | a string amount such as "12abc" passes the checks as written and debits 12 from a balance of 5 |
| Wallet.Gate | routes/wallet.js:65-74 | the corrected checks of the first Findings row: the debited amount is accepted iff 0 < amount ≤ balance, with 400 for an invalid amount and for an insufficient balance |
| Wallet.GateAgreesOnNumbers | routes/wallet.js:65-74 | on numeric amounts the checks decide exactly as written |
| Wallet.NewMethod | routes/wallet.js:126-151 | 500 on a bad user id; 400 unless the type is 'bank' or 'upi' and details are given, and success exactly then; the alias defaults to the bank name or 'UPI ID' |
| Wallet.FirstOwned | routes/wallet.js:159-162 | the first method with that id owned by the caller |
| Wallet.RemoveOwned | routes/wallet.js:154-173 | 500 on a bad id, 404 iff no such method belongs to the caller; otherwise exactly the first matching method is removed, and every other method, the caller's own included, stays in order |
| Wallet.RemoveAtKeeps | routes/wallet.js:159-162 | removing one position keeps every other method |
| Wallet.DeleteIsOwnerScoped | routes/wallet.js:159-166 | another user's method is never deleted, whoever asks |
| Wallet.WalletStore.Withdraw | routes/wallet.js:60-107 | with the corrected checks (Gate), not the ones as written: the error cases leave the state unchanged, and a valid amount no larger than the balance of an existing user succeeds. Then exactly one pending debit of the amount is recorded and the balance drops by it, so non-negative balances stay non-negative; on numeric amounts this is the handler's own behaviour (GateAgreesOnNumbers) |
| Wallet.WalletStore.AddPaymentMethod | routes/wallet.js:126-151 | a valid method is appended and nothing else changes |
| Wallet.WalletStore.DeletePaymentMethod | routes/wallet.js:154-173 | the outcome of RemoveOwned: on success the methods become RemoveOwned's result, otherwise the error is returned and nothing changes |
| Auth.NewUserRules | routes/auth.js:26-58 | role defaults to 'vendor', status is always 'Pending', and the category rules for an array or a single category hold |
| Auth.BuildUser | routes/auth.js:28-58 | the document built field by field is the signup document |
| Auth.FindByEmail | routes/auth.js:18 | the first user with that email, or none iff no user has it |
| Auth.Login | routes/auth.js:94-148 | 400 without email or password, 401 for an unknown email; a token only for a matching password on an account that is not Pending, Blocked or Rejected, carrying the id, email and role of the first user with that email and its categories or [] |
| Auth.LoginGate | routes/auth.js:102-120 | on the first user with the email: 401 on a wrong password, 403 for 'Pending' and for 'Blocked' or 'Rejected', otherwise a token |
| Auth.FirstByEmail | routes/auth.js:102 | no earlier user has the email |
| Auth.FreshSignupRefused | routes/auth.js:14-120 | a freshly signed-up user of any role is refused at login: 403 pending with the right password |
| Auth.UserStore.Signup | routes/auth.js:10-91 | 400 for missing fields or an existing email; a complete request with a new email succeeds and appends the user, and only a customer gets a token, with status shown as 'Active' |
| Recalc.Cleaned | recalculate_balance.js:10-12 | exactly the transactions whose description is not the test one remain |
| Recalc.CleanedKeepsAll | recalculate_balance.js:10-12 | a collection without test transactions is left as it is |
| Recalc.RiderlessOrderCountedAsWritten | recalculate_balance.js:19-22 | as written, a completed order with no riderId is matched for a rider without a firebaseUid |
| Recalc.MatchesAsWritten | recalculate_balance.js:19-22 | definition, with no contract of its own: the `$in` match as written, with an undefined firebaseUid matching a missing riderId; RiderlessOrderCountedAsWritten states it |
| Recalc.RiderOrderNamesRider | recalculate_balance.js:19-22 | only an order that names a rider is matched, and the corrected match agrees with the written one on every such order and every rider with a firebaseUid |
| Recalc.Completed | recalculate_balance.js:19-22 | with the corrected rider match (RiderOrder), not the one as written: the completed orders whose riderId is the rider's id or its firebaseUid when it has one. On orders that name a rider, and for riders with a firebaseUid, this is the script's own query (RiderOrderNamesRider) |
| Recalc.Earning | recalculate_balance.js:27 | definition, with no contract of its own: riderEarning when it is a number, otherwise 15 |
| Recalc.Description | recalculate_balance.js:45 | the credit's description starts with "Delivery Earnings #" |
| Recalc.Recomputed | recalculate_balance.js:62-68 | a rider's balance becomes earnings minus withdrawals, and any other user is untouched |
| Recalc.InsertCreditsExtends | recalculate_balance.js:34-49 | the inner loop only appends credits of the rider, none of them a test transaction |
| Recalc.InsertCreditsCovers | recalculate_balance.js:26-50 | after the inner loop, every completed order of the rider has a credit |
| Recalc.InsertCreditsNothingMissing | recalculate_balance.js:34-40 | where every credit already exists, nothing is inserted |
| Recalc.InsertCreditsNoDuplicates | recalculate_balance.js:34-49 | no rider ever gets two credits for the same order |
| Recalc.WithdrawnIgnoresCredits | recalculate_balance.js:53-60 | inserting credits does not change the withdrawals |
| Recalc.AfterRidersFacts | recalculate_balance.js:15-70 | the outer loop only appends credits, and leaves every user's withdrawals as they were |
| Recalc.AfterRidersGrows | recalculate_balance.js:17-70 | later riders only extend the transactions of earlier ones |
| Recalc.EveryRiderCredited | recalculate_balance.js:17-50 | after the script, every completed order of every rider has a credit |
| Recalc.AfterRidersNothingMissing | recalculate_balance.js:17-50 | where all the credits exist, the outer loop inserts nothing |
| Recalc.CleanRunStaysClean | recalculate_balance.js:10-12 | after one run there is no test transaction left, so a second clean-up removes nothing |
| Recalc.RecomputedAllCredited | recalculate_balance.js:17-50 | after one run, every rider of the updated users has a credit for each completed order |
| Recalc.RecomputedAllStable | recalculate_balance.js:53-68 | recomputing the updated users against the first run's transactions gives the same balances |
| Recalc.RecalculationIdempotent | recalculate_balance.js:10-70 | running the script a second time inserts no credit and gives every user the same balance |
| Recalc.BalanceStore.Run | recalculate_balance.js:10-70 | with the corrected rider match (RiderOrder): the transactions and users after the script are the specification applied to the cleaned collection |
| Recalc.BalanceStore.Step | recalculate_balance.js:17-70 | one turn of the outer loop extends the specification by one user |
| Recalc.BalanceStore.ProcessRider | recalculate_balance.js:19-68 | with the corrected rider match (RiderOrder): credits are inserted for the rider's missing orders, and the balance is set to earnings minus withdrawals |

## Left out

- Firestore sync, FCM push messages and the notifications insert. These are foreign calls whose failures are swallowed.
- JWT signing and verification, and bcrypt. The hash is an input, the password check is a parameter, and a token is represented by its claims.
- The haversine formula. Distance is a parameter returning a finite value or Infinity.
- Time zones, `Intl` and `Date` arithmetic. The day name, the current minutes, the calendar fields of each order and the clock are inputs.
- `toFixed` rounding, and floating point in general. Money is an exact `real`, and 0.10 is exact.
- NaN. A field that does not parse as a number is None.
- Coupons.Apply: a missing or non-numeric `cartTotal` (NaN) is not modelled.
- Cart.CartStore.Update: receives the parsed quantity, so a NaN from `parseInt` is not modelled.
- The product listing's aggregation pipeline. The joined product and vendor records are the input of Products.ListOpenProducts.
- Products.CreateProduct: a product whose vendor lookup fails is not modelled; only a present or absent vendor is.
- The other product, order and coupon endpoints: get-by-id, the listings, update, delete of a product, and the coupon toggle. They are thin CRUD.
- Orders.SplitByVendor: a product without a vendorId, where `toString` throws, is not modelled.
- Concurrency: the read-then-`$inc` race of a withdrawal, concurrent sweeps and concurrent checkouts.
- The accept endpoint, and group atomicity. Rejection is modelled only as the integration script drives it.
- Stats: the activeVendors, activeCustomers and onlineRiders counts, and the recentActivity formatting, are not modelled.
- Stats.CountsSnoc: a status that names an `Object.prototype` member, such as 'toString', is not modelled.
- Stats.Recent: orders without a date are placed last. The source comparator gives NaN for them, and the order V8 then produces is not specified.
- Stats.ComputeVendorSummary: a string `totalAmount`, which `+=` would concatenate, is not modelled.
- Sorting.StringLe: strings are compared by character code. This agrees with UTF-16 order on the ASCII date keys.
- The wallet's transaction listing (`GET /`, sorted and limited) and the payment-method listing are not modelled.
- Wallet.WalletStore.Withdraw: the debit's `bankDetails` fallback is modelled, but the user's other fields are not.
- The auth profile and status endpoints, and `middleware/auth.js`.
- Common.ToUpper: only the ASCII letters a-z are upper-cased, while JavaScript's `toUpperCase` maps every Unicode letter and can change the length ('ß' becomes "SS"). A coupon created as "café" is stored and looked up as "CAFÉ" by the source, but stored as "CAFé" by the model, so applying "CAFÉ" is 404 in the model and succeeds in the source.
- Wallet.WalletStore.Withdraw: follows the corrected amount checks, so an amount such as "12abc" is refused where the source debits it; the source's behaviour is the as-written half of the first Findings row.
- Recalc.Completed: follows the corrected rider match, so a completed order with no riderId is not matched for riders without a firebaseUid, as it is by the source; the source's match is the as-written half of the second Findings row.
- Recalc.BalanceStore.Run: uses Recalc.Completed, so it credits no riderless order to riders without a firebaseUid, and their balances leave those orders out.
- Recalc.BalanceStore.ProcessRider: uses Recalc.Completed, with the same difference for one rider.
- Legacy 12-byte ObjectId strings, which `new ObjectId` also accepts, are not modelled.
- Each module has its own view of the `users`, `orders` and `transactions` documents: the fields its handlers read.
- Recalc.BalanceStore.Run: users are updated by position, since their ids are unique. The clock read at each insert is a single `now`.

## Findings

| source | as written | input that shows it | evidently intended | confidence | as-written member | corrected member |
|---|---|---|---|---|---|---|
| routes/wallet.js:65-80 | the amount checks compare the raw request value, coerced with `Number`, but the debit uses `parseFloat` | amount "12abc" and balance 5: `!amount`, `amount <= 0` and `balance < amount` are all false, and 12 is debited, leaving −7 | check the value that is debited: 0 < parseFloat(amount) ≤ balance | medium; not executed | Wallet.TextAmountOverdraws | Wallet.Gate |
| recalculate_balance.js:20 | `$in: [rider._id.toString(), rider.firebaseUid]` holds `undefined` for a rider without a firebaseUid, which the driver sends as null, so orders with no riderId match | a rider without a firebaseUid, and an order completed through `PATCH /:id/status` with no rider: it is credited to that rider, and to every other such rider | match only the ids the rider has | medium; not executed | Recalc.RiderlessOrderCountedAsWritten | Recalc.RiderOrderNamesRider |
