# Coupon engine of monk-commerce-assignment, in Dafny

This project models the coupon service of a small e-commerce backend written in
Go (services/coupon.go). The service stores three kinds of coupon:

- **cart-wise**: a percentage off the whole cart, once its total reaches a threshold;
- **product-wise**: a percentage off every line of one product;
- **buy X get Y (BxGy)**: integer-division trigger counts over the "buy" products,
  limited by a repetition limit, each trigger worth one bundle of "get" products
  priced from the cart.

The model covers the two discount entry points:

- `GetApplicableCoupons` lists every stored coupon that applies to a cart, with its discount.
- `ApplyCoupon` applies one coupon and returns a per-line breakdown with the total price,
  total discount and final price.

It also covers the administration operations `CreateCoupon`, `GetCoupons`,
`GetCouponById` and `DeleteCoupon`.

The store is a value: a `Repository` of six tables, each a sequence of rows in
table order. The store's queries are functions over those sequences:

- `First` finds the first row with a key, or reports "record not found".
- `Where` finds all rows with a key, in order.
- `Without` gives the rows a delete leaves.

Every loop of the service is a Dafny `method` with loop invariants. Each method
is proved equal to a pure specification function. The properties the service
promises are then proved as lemmas about those functions. Go's truncating
integer division and its `int(float64)` conversion are written out
(`Numeric.GoDiv`, `Numeric.GoTrunc`). Prices and percentages are exact reals.

Files:

- `records.dfy`: rows, request and response shapes, errors.
- `numeric.dfy`: Go division and truncation.
- `store.dfy`: tables, queries and the per-type detail fetch.
- `discount.dfy`: the sums and their loops.
- `applicable.dfy`: GetApplicableCoupons.
- `apply.dfy`: ApplyCoupon.
- `admin.dfy`: create, list, get and delete.
- `scenarios.dfy`: worked carts.

The two entry points treat the same coupon differently in two ways, and the model keeps both:

- `ApplyCoupon` adds a cart-wise coupon's whole-cart discount once per cart line
  (services/coupon.go:426-444), not once per cart.
- For BxGy, `ApplyCoupon` counts triggers per line and gives nothing on a line
  whose count exceeds the repetition limit (services/coupon.go:480), where
  `GetApplicableCoupons` caps the count at the limit (services/coupon.go:379-382).

`Scenarios.CartWiseCountedPerLine`, `Scenarios.BxGyLineAboveLimit` and
`Scenarios.BxGySpreadOverLines` exhibit both differences on concrete carts.

## Model

| member | source | states |
|---|---|---|
| Numeric.GoDivTruncates | services/coupon.go:374 | Go's `/` truncates toward zero: the remainder is smaller than the divisor and has the sign of the dividend |
| Numeric.GoDivAgreesOnNonNegatives | services/coupon.go:476 | for a non-negative quantity and a positive divisor, Go's quotient is the ordinary one and is non-negative |
| Numeric.GoTrunc | services/coupon.go:172-173 | `int(x)` of a float is its integer part, truncated toward zero, on both signs |
| Numeric.GoTruncOfInt | services/coupon.go:66-67 | an integer stored as a float and read back with `int(...)` is unchanged |
| Store.First | daos/coupon.go:100-107 | a `Where(...).First` query returns a stored row with the key, and finds nothing exactly when no row carries the key |
| Store.WhereMembers | daos/coupon.go:127-134 | a `Where(...).Find` query returns exactly the rows carrying the key |
| Store.WithoutMembers | daos/coupon.go:163-170 | a `Where(...).Delete` keeps exactly the rows carrying another key |
| Store.FirstWithout | daos/coupon.go:154-161 | deleting the rows of one key does not change the first-row query for any other key |
| Store.WhereWithout | daos/coupon.go:190-197 | deleting the rows of one key does not change the all-rows query for any other key |
| Store.WhereAdded | daos/coupon.go:73-80 | after rows with a fresh key are inserted, the query for that key finds exactly those rows, in insertion order |
| Store.WithoutAdded | daos/coupon.go:181-188 | deleting the key of freshly inserted rows restores the table as it was |
| Store.StoredBuysDivisible | services/coupon.go:361-374 | if no stored buy row would divide a cart line's quantity by zero, then no coupon's own buy rows do either |
| Store.StoredDetailsNonNegative | services/coupon.go:330-368 | the details fetched from a store with no negative percentage, limit or get quantity have none either |
| Store.LoadDetailsMeaning | services/coupon.go:330-368 | the detail rows fetched for a coupon match its type and are exactly its stored rows; the fetch fails, with "record not found", exactly when its type is one of the three and its detail table has no row for its id; an unknown type fetches nothing |
| Discount.ComputeCartTotal | services/coupon.go:320-323 | the accumulation loop yields the cart total, Σ quantity × price |
| Discount.CartTotalNonNegative | services/coupon.go:320-323 | a cart with no negative quantity or price has a non-negative total |
| Discount.SumMatchingDiscount | services/coupon.go:348-353 | the product-wise loop yields the discount summed over the lines of the product, and marks the coupon applicable exactly when some line is of that product |
| Discount.UnmatchedProductNoDiscount | services/coupon.go:348-353 | without a line of the product, the product-wise discount is zero |
| Discount.MatchingDiscountBounded | services/coupon.go:350 | for non-negative carts and percentages, the product-wise discount lies between zero and that percentage of the whole cart |
| Discount.CountBuys | services/coupon.go:370-377 | the nested loops yield the raw trigger count, summed over buy products and lines of the same product |
| Discount.EffectiveBuyCount | services/coupon.go:379-382 | the capped count is the smaller of the raw count and the repetition limit: never above either, and equal to one of them |
| Discount.SumBundleValue | services/coupon.go:384-390 | the nested loops yield the value of one get bundle, each get quantity priced at every line of its product |
| Discount.UnmatchedGetProductIsWorthNothing | services/coupon.go:384-390 | a get product with no line in the cart is worth nothing |
| Discount.UnmatchedGetAddsNothing | services/coupon.go:384-390 | adding a get product the cart does not hold leaves the bundle value unchanged |
| Discount.CountLineBuys | services/coupon.go:473-478 | ApplyCoupon's count loop yields the trigger count of one line against the buy products of the same id |
| Discount.SumScaledBundleValue | services/coupon.go:481-489 | ApplyCoupon's get-product loops yield the bundle scaled by the line's count |
| Discount.ScaledGetProductIsMultiple | services/coupon.go:484 | pricing `getQty × count` units of one get product is `count` times the value of `getQty` units |
| Discount.ScaledBundleIsMultiple | services/coupon.go:481-489 | what ApplyCoupon attributes to a line is its count times the value of one bundle |
| Discount.GetProductValueNonNegative | services/coupon.go:384-390 | on a cart with no negative quantity or price, a get product of non-negative quantity is worth at least zero |
| Discount.BundleValueNonNegative | services/coupon.go:384-390 | on such a cart, one bundle of non-negative get quantities is worth at least zero |
| Discount.BxGyDiscountNonNegative | services/coupon.go:379-392 | on such a cart, a triggered BxGy coupon with a non-negative limit gives a discount of at least zero |
| Discount.LineCountsSumToRaw | services/coupon.go:473-478 | ApplyCoupon's per-line counts, summed over the cart, equal GetApplicableCoupons' raw count |
| Applicable.Evaluate | services/coupon.go:395-402 | a listed entry carries the coupon's own id and type string; a coupon of an unrecognised type is never listed |
| Applicable.GetApplicableCoupons | services/coupon.go:310-406 | the method's answer is the specification's: the applicable coupons in store order, or the first failed lookup |
| Applicable.CheckCoupon | services/coupon.go:330-393 | the type switch reaches the specified verdict for every type, including the unrecognised one |
| Applicable.CheckCartWise | services/coupon.go:331-340 | the cart-wise case reaches the specified verdict or fails on a missing row |
| Applicable.CheckProductWise | services/coupon.go:342-353 | the product-wise case reaches the specified verdict or fails on a missing row |
| Applicable.CheckBxGy | services/coupon.go:355-392 | the BxGy case, with its in-place cap, reaches the specified verdict or fails on a missing row |
| Applicable.FailureAborts | services/coupon.go:333-335 | once a prefix of the coupons fails, the whole answer is that failure |
| Applicable.FailsIffSomeLookupFails | services/coupon.go:326-368 | the call fails exactly when the detail lookup of some stored coupon fails; no partial list is returned |
| Applicable.SpecGathers | services/coupon.go:396-402 | when the call succeeds, every lookup succeeded and the answer is the applicable verdicts' entries, in order |
| Applicable.GatherPositions | services/coupon.go:396-402 | each collected entry comes from an "applicable" verdict, at increasing positions, and every such verdict contributes one |
| Applicable.ListingPositions | services/coupon.go:326-405 | the answer lists exactly the applicable coupons, in store order, each with its verdict's entry |
| Applicable.ListedIffApplicable | services/coupon.go:396-402 | with distinct ids, a stored coupon appears in the answer exactly when it is applicable, and then with its own entry |
| Applicable.EvaluateNonNegative | services/coupon.go:331-392 | on a cart with no negative quantity or price, a coupon with non-negative details is listed, if at all, with a discount of at least zero |
| Applicable.ListedDiscountsNonNegative | services/coupon.go:326-405 | on such a cart and a store with no negative percentage, limit or get quantity, every listed discount is at least zero |
| Applicable.OnlyKnownTypesListed | services/coupon.go:330-393 | no listed coupon has a type outside the three |
| Applicable.CartWiseListed | services/coupon.go:331-340 | a cart-wise coupon is listed exactly when the cart total reaches its threshold, with that percentage of the total; below the threshold it never appears |
| Applicable.ProductWiseListed | services/coupon.go:342-353 | a product-wise coupon is listed exactly when a line is of its product, with the discount summed over all such lines |
| Applicable.BxGyListed | services/coupon.go:370-392 | a BxGy coupon is listed exactly when its raw count is positive, with the count capped at the limit times one bundle |
| Applicable.BxGyVerdict | services/coupon.go:355-392 | the verdict on a BxGy coupon with a stored row is "applicable with the capped discount" when the raw count is positive, else "not applicable" |
| Apply.ApplyCoupon | services/coupon.go:408-509 | the method's answer is the specification's updated cart, or the missing coupon's or missing detail row's error |
| Apply.ApplyToLine | services/coupon.go:426-494 | one loop iteration yields the line's entry and its addition to the total discount, or the failed lookup |
| Apply.ApplyShape | services/coupon.go:418-505 | one entry per input line, in order, with product, quantity and price unchanged; the total price is the cart total; the final price is the total price less the total discount |
| Apply.ApplyFails | services/coupon.go:408-471 | the call fails, with "record not found", exactly when no coupon has the id, or the cart is not empty and the coupon's detail row is missing |
| Apply.ApplyEmptyCart | services/coupon.go:415-423 | an existing coupon on an empty cart gives an empty cart with all totals zero, whatever its details |
| Apply.TotalIsSumOfLines | services/coupon.go:426-490 | for a product-wise, BxGy or unrecognised coupon the total discount equals the sum of the line discounts, and for a cart-wise coupon the line discounts sum to zero |
| Apply.LineContributionNonNegative | services/coupon.go:435-489 | on a cart with no negative quantity or price, a coupon with non-negative details gives each line a discount, and adds to the total an amount, of at least zero |
| Apply.ApplyTotalNonNegative | services/coupon.go:426-497 | on such a cart and a store with no negative percentage, limit or get quantity, every line discount and the total discount are at least zero, so the final price never exceeds the total price |
| Apply.CartWisePerLine | services/coupon.go:441-444 | after `n` lines a cart-wise coupon has added its whole-cart discount `n` times |
| Apply.ApplyCartWise | services/coupon.go:435-444 | a cart-wise coupon leaves every line's discount zero, and its total discount is the number of lines times the whole-cart percentage when the threshold is reached, otherwise zero |
| Apply.ProductWiseContributions | services/coupon.go:452-456 | the product-wise running total over a prefix of the cart is that prefix's product-wise discount |
| Apply.ApplyProductWise | services/coupon.go:446-456 | only lines of the product carry a discount, the percentage of their value; the total is GetApplicableCoupons' product-wise discount; with no such line the total is zero and the final price is the total price |
| Apply.ApplyBxGy | services/coupon.go:458-490 | each line carries its own trigger count times one bundle when the count is between one and the limit, and nothing otherwise |
| Apply.BxGyLines | services/coupon.go:480-489 | every line of a BxGy-updated cart carries its count times one bundle within the limit, and zero otherwise |
| Apply.BxGyContributionsWithinLimit | services/coupon.go:473-489 | while no line's own count is negative or above the limit, ApplyCoupon's BxGy running total is the lines' summed counts times one bundle |
| Apply.BxGyLine | services/coupon.go:480-489 | one line's BxGy discount is its count times one bundle within the limit, and zero otherwise |
| Admin.BuyQuantities | services/coupon.go:202-207 | the buy rows listed in the API form, one per row and in order |
| Admin.GetQuantities | services/coupon.go:208-213 | the get rows listed in the API form, one per row and in order |
| Admin.ListBuyProducts | services/coupon.go:284-289 | the conversion loop yields the buy rows in API form |
| Admin.ListGetProducts | services/coupon.go:290-295 | the conversion loop yields the get rows in API form |
| Admin.HydrateCoupon | services/coupon.go:246-305 | the type switch yields the coupon's view, or "unsupported coupon type", or the failed lookup |
| Admin.HydrateCartWise | services/coupon.go:247-255 | the cart-wise view: threshold and discount truncated to integers |
| Admin.HydrateProductWise | services/coupon.go:257-265 | the product-wise view: product id and truncated discount |
| Admin.HydrateBxGy | services/coupon.go:267-301 | the BxGy view: repetition limit with buy and get rows in order |
| Admin.GetCouponById | services/coupon.go:232-308 | the method's answer is the specification's: the coupon's view, "record not found" for a missing base or detail row, or "unsupported coupon type" for a type outside the three |
| Admin.GetCoupons | services/coupon.go:147-230 | the method's answer is the specification's: every coupon's view in store order, or the first failure |
| Admin.AllCouponsAborts | services/coupon.go:167-170 | once a prefix of the coupons fails, the whole listing is that failure |
| Admin.AllCouponsPointwise | services/coupon.go:158-227 | the listing fails exactly when some coupon cannot be shown; otherwise it has one view per coupon, in order |
| Admin.AllCouponsAreById | services/coupon.go:147-308 | with distinct ids, GetCoupons shows each coupon as GetCouponById does, and fails exactly when GetCouponById fails on one of them |
| Admin.FoundById | daos/coupon.go:145-152 | with distinct ids, looking up a stored coupon's id finds that coupon |
| Admin.BuyRows | services/coupon.go:101-114 | one buy row per requested product, in order, keyed by the new coupon's id |
| Admin.GetRows | services/coupon.go:116-129 | one get row per requested product, in order, keyed by the new coupon's id |
| Admin.CreateCoupon | services/coupon.go:34-145 | the method's new store is the specification's; an unrecognised type stores nothing |
| Admin.BuyRowsReadBack | services/coupon.go:101-114 | buy products stored and listed again come back unchanged |
| Admin.GetRowsReadBack | services/coupon.go:116-129 | get products stored and listed again come back unchanged |
| Admin.CreateThenGet | services/coupon.go:43-136 | a coupon created under a fresh id reads back with its id, its type and the requested details of its type |
| Admin.CartWiseReadBack | services/coupon.go:63-74 | a created cart-wise coupon reads back with its threshold and discount |
| Admin.ProductWiseReadBack | services/coupon.go:76-87 | a created product-wise coupon reads back with its product and discount |
| Admin.BxGyReadBack | services/coupon.go:89-129 | a created BxGy coupon reads back with its limit and its buy and get products |
| Admin.BxGyKept | services/coupon.go:89-129 | the rows a BxGy request is stored as read back as exactly the request's BxGy fields |
| Admin.BxGyRowsCreated | services/coupon.go:89-129 | after creating a BxGy coupon under a fresh id, its id has exactly the requested BxGy row, buy rows and get rows |
| Admin.SameRowsSameView | services/coupon.go:232-308 | GetCouponById's answer depends only on the rows stored for that id |
| Admin.CreateKeepsOthers | services/coupon.go:43-136 | creating a coupon changes what GetCouponById shows for no other id |
| Admin.BxGyCreateKeepsOthers | services/coupon.go:89-129 | creating a BxGy coupon changes no BxGy row set of another id |
| Admin.DeleteCoupon | services/coupon.go:511-570 | the method's new store is the specification's: "coupon not found" for an unknown id, else the detail rows of its type and its base row removed |
| Admin.DeleteThenGet | services/coupon.go:555-561 | after a deletion, GetCouponById finds no record for the id |
| Admin.DeleteKeepsOthers | services/coupon.go:525-561 | deleting a coupon changes what GetCouponById shows for no other id |
| Admin.BxGyRowsKept | services/coupon.go:531-549 | removing one id's BxGy rows keeps every other id's BxGy rows |
| Admin.CreateThenDelete | services/coupon.go:511-570 | deleting a coupon just created under a fresh id gives back the store as it was |
| Admin.BxGyDeleteUndoesCreate | services/coupon.go:531-549 | deleting a fresh BxGy coupon's rows restores the three BxGy tables |
| Scenarios.BxGyWorkedExample | services/coupon.go:370-392 | buy two A get one B (limit 3), seven A and two B: both entry points give a discount of 12 |
| Scenarios.CartWiseCountedPerLine | services/coupon.go:435-444 | ten percent from 100 on a two-line cart of 150 is listed with 15 but applied as 30 |
| Scenarios.BxGyLineAboveLimit | services/coupon.go:480-490 | a line whose own count exceeds the limit gets nothing from ApplyCoupon, though the coupon is listed with the capped discount |
| Scenarios.BxGySpreadOverLines | services/coupon.go:473-489 | buy one A get one B (limit 2), two lines of two A and one B at 5: listed with the count of four capped at two (10), but applied as 10 on each A line (20) |
| Scenarios.BxGyAgreesWithinLimit | services/coupon.go:370-392 | when every line's own count and the raw count lie within the limit, ApplyCoupon's BxGy total is the capped count times one bundle, and the listing, when it lists the coupon, shows that same amount |

## Left out

- Database transactions: `Begin`, `Rollback` and `Commit` (services/coupon.go:36-41, 139-142, 518-523, 564-567) are not modelled. A create either completes or, for an unrecognised type, leaves the store as it was. A delete of a coupon with an unrecognised type removes its base row and no detail row (services/coupon.go:526-556). The deletes go through the plain connection rather than the transaction (daos/coupon.go:156-206), so a real deletion is not atomic; the model does not capture that.
- Store failures other than "record not found" (connection errors, constraint violations) are not modelled: every insert, query and delete succeeds. In particular, models/coupon.go:33 and :39 make `BxGyCouponID` the only primary key of the buy and get rows. A schema built from those tags would reject a second buy or get row for the same coupon, and CreateCoupon would then roll back. The model stores any number of such rows per coupon.
- `uuid.New()` and `time.Now()` (services/coupon.go:44-50) are not modelled. The new coupon's id is a parameter, and the creation and update times are not modelled.
- Float64 rounding is not modelled: prices, percentages and sums are exact reals. Go's `int(...)` truncation of stored values is modelled (`Numeric.GoTrunc`).
- Fixed-width integer overflow in quantities, counts and `getProduct.Quantity*buyCount` is not modelled: integers are unbounded.
- Division by zero: Go panics when a buy product's quantity is zero and a cart line has that product (services/coupon.go:374, 476). The methods that divide require that no division they actually perform has a zero divisor: `Apply.ApplyCoupon` and `Applicable.CheckCoupon` only for the coupon at hand's own buy rows (`Store.CouponDivisible`), and `Applicable.GetApplicableCoupons` only for the coupons its loop reaches before a failed lookup (`Applicable.ReachedDivisible`). The specification functions count such a line as zero.
- Apply.ApplyCoupon: the lookups of the coupon's detail rows, repeated once per cart line in the source, are modelled once per line through `ApplyToLine`; the store does not change between them, so every repetition gives the same answer.
- Nil and empty slices are not distinguished: an empty answer from GetApplicableCoupons or an empty product list in a view is `[]`.
- GORM's row order is not modelled beyond "table order": every query sees the rows in the order of the sequences.
- Logging (zap), HTTP handlers, JSON binding, configuration and connection setup are not modelled.
- `isActive` is stored but never read by the service, so the model only stores it.
- Apply.ApplyBxGy: ApplyCoupon's BxGy total discount is related to the discount GetApplicableCoupons lists only when every line's own count and the raw count lie within the limit (`Scenarios.BxGyAgreesWithinLimit`). Outside that case the two can differ, for example when a line's own count exceeds the limit (`Scenarios.BxGyLineAboveLimit`) or when the triggers of several lines together exceed it (`Scenarios.BxGySpreadOverLines`). They can also agree there; the model gives no exact condition for agreement.
