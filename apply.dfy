/** ApplyCoupon (services/coupon.go): one coupon applied to a cart, line by
    line, giving every line's discount and the cart's totals. */
module Apply {
  import opened Records
  import opened Store
  import opened Discount

  /** No line of a cart whose divisions by the buy rows are safe divides by zero on its own. */
  lemma {:induction false} LineOfCountedCart(cart: seq<CartItem>, buys: seq<BxGyBuyProduct>, k: nat)
    requires AllDivisible(cart, buys) && k < |cart|
    ensures LineDivisible(cart[k], buys)
  {
    forall j | 0 <= j < |buys| && buys[j].productId == cart[k].productId
      ensures buys[j].quantity != 0
    {
      assert Divisible(cart, buys[j]);
    }
  }

  /** The discount ApplyCoupon records on line `k`: nothing for a cart-wise
      coupon, the product's percentage for a line of a product-wise coupon's
      product, and for a BxGy coupon the line's own trigger count times one
      bundle of every get product, when that count lies between one and the
      repetition limit. */
  function LineDiscount(cart: seq<CartItem>, d: Details, k: nat): real
    requires k < |cart|
  {
    var item := cart[k];
    match d
    case CartWiseDetails(_) => 0.0
    case ProductWiseDetails(pw) =>
      if item.productId == pw.productId then ProductLineDiscount(pw.discount, item) else 0.0
    case BxGyDetails(b, buys, gets) =>
      var count := LineBuyCount(item, buys);
      if 0 < count <= b.repetitionLimit then ScaledBundleValue(cart, gets, count) else 0.0
    case NoDetails => 0.0
  }

  /** What line `k` adds to the total discount: a cart-wise coupon adds its
      whole-cart discount again on every line, any other its line discount. */
  function LineContribution(cart: seq<CartItem>, d: Details, k: nat): real
    requires k < |cart|
  {
    match d
    case CartWiseDetails(cw) =>
      var total := CartTotal(cart);
      if total >= cw.threshold then PercentOf(cw.discount, total) else 0.0
    case _ => LineDiscount(cart, d, k)
  }

  /** The total discount after the first `n` lines. */
  function Contributions(cart: seq<CartItem>, d: Details, n: nat): real
    requires n <= |cart|
  {
    if n == 0 then 0.0 else Contributions(cart, d, n - 1) + LineContribution(cart, d, n - 1)
  }

  function ItemFor(cart: seq<CartItem>, d: Details, k: nat): CartItemDiscount
    requires k < |cart|
  {
    CartItemDiscount(cart[k].productId, cart[k].quantity, cart[k].price, LineDiscount(cart, d, k))
  }

  /** The updated cart for a coupon whose details are `d`. */
  function Updated(cart: seq<CartItem>, d: Details): UpdatedCart
  {
    var total := CartTotal(cart);
    var discount := Contributions(cart, d, |cart|);
    UpdatedCart(seq(|cart|, k requires 0 <= k < |cart| => ItemFor(cart, d, k)), total, discount, total - discount)
  }

  /** What ApplyCoupon answers: the coupon must exist; the detail lookups
      happen once per line, so an empty cart never reaches them. */
  function ApplySpec(repo: Repository, couponId: string, cart: seq<CartItem>): Result<UpdatedCart>
  {
    match FindCoupon(repo, couponId)
    case None => Err(RecordNotFound)
    case Some(coupon) =>
      if cart == [] then Ok(Updated(cart, NoDetails))
      else
        match LoadDetails(repo, coupon)
        case Err(e) => Err(e)
        case Ok(d) => Ok(Updated(cart, d))
  }

  /** What the loop body of ApplyCoupon produces for line `k`: the line's
      entry and the amount added to the total, or the failed lookup. */
  function LineOutcome(repo: Repository, cart: seq<CartItem>, coupon: Coupon, k: nat): Result<(CartItemDiscount, real)>
    requires k < |cart|
  {
    match LoadDetails(repo, coupon)
    case Err(e) => Err(e)
    case Ok(d) => Ok((ItemFor(cart, d, k), LineContribution(cart, d, k)))
  }

  method ApplyCoupon(repo: Repository, couponId: string, cart: seq<CartItem>) returns (r: Result<UpdatedCart>)
    requires FindCoupon(repo, couponId).Some? ==> CouponDivisible(repo, cart, FindCoupon(repo, couponId).value)
    ensures r == ApplySpec(repo, couponId, cart)
  {
    var found := FindCoupon(repo, couponId);
    if found.None? {
      return Err(RecordNotFound);
    }
    var coupon := found.value;
    ghost var outcome := LoadDetails(repo, coupon);
    ghost var d := if outcome.Ok? then outcome.value else NoDetails;

    var totalDiscount := 0.0;
    var updatedItems := new CartItemDiscount[|cart|];
    var totalPrice := ComputeCartTotal(cart);

    for i := 0 to |cart|
      invariant i > 0 ==> outcome.Ok?
      invariant totalDiscount == Contributions(cart, d, i)
      invariant forall k :: 0 <= k < i ==> updatedItems[k] == ItemFor(cart, d, k)
    {
      var line := ApplyToLine(repo, couponId, coupon, cart, totalPrice, i);
      if line.Err? {
        return Err(line.error);
      }
      updatedItems[i] := line.value.0;
      totalDiscount := totalDiscount + line.value.1;
    }

    var finalPrice := totalPrice - totalDiscount;
    assert updatedItems[..] == Updated(cart, d).items;
    if cart == [] {
      assert Updated(cart, d) == Updated(cart, NoDetails);
    }
    return Ok(UpdatedCart(updatedItems[..], totalPrice, totalDiscount, finalPrice));
  }

  /** The body of ApplyCoupon's loop: the type switch with its detail lookups,
      and the discount of the line at position `i`. */
  method ApplyToLine(repo: Repository, couponId: string, coupon: Coupon, cart: seq<CartItem>, totalPrice: real, i: nat)
    returns (r: Result<(CartItemDiscount, real)>)
    requires CouponDivisible(repo, cart, coupon)
    requires coupon.id == couponId && totalPrice == CartTotal(cart) && i < |cart|
    ensures r == LineOutcome(repo, cart, coupon, i)
  {
    var item := cart[i];
    var itemDiscount := 0.0;
    var added := 0.0;
    ghost var details := NoDetails;

    match KindOf(coupon.couponType) {
    case CartWise =>
      var cartCoupon := FindCartWise(repo, couponId);
      if cartCoupon.None? {
        return Err(RecordNotFound);
      }
      details := CartWiseDetails(cartCoupon.value);
      if totalPrice >= cartCoupon.value.threshold {
        added := (cartCoupon.value.discount / 100.0) * totalPrice;
      }
      assert added == LineContribution(cart, details, i);
    case ProductWise =>
      var productCoupon := FindProductWise(repo, couponId);
      if productCoupon.None? {
        return Err(RecordNotFound);
      }
      details := ProductWiseDetails(productCoupon.value);
      if item.productId == productCoupon.value.productId {
        var discount := (productCoupon.value.discount / 100.0) * (item.quantity as real) * item.price;
        itemDiscount := discount;
        added := added + discount;
      }
      assert itemDiscount == LineDiscount(cart, details, i);
    case BxGy =>
      var bxgyCoupon := FindBxGy(repo, couponId);
      if bxgyCoupon.None? {
        return Err(RecordNotFound);
      }
      var buyProducts := BuyProductsOf(repo, bxgyCoupon.value.couponId);
      var getProducts := GetProductsOf(repo, bxgyCoupon.value.couponId);
      details := BxGyDetails(bxgyCoupon.value, buyProducts, getProducts);
      assert LoadDetails(repo, coupon) == Ok(details);
      LineOfCountedCart(cart, buyProducts, i);
      var buyCount := CountLineBuys(item, buyProducts);
      if buyCount > 0 && buyCount <= bxgyCoupon.value.repetitionLimit {
        var value := SumScaledBundleValue(cart, getProducts, buyCount);
        itemDiscount := itemDiscount + value;
        added := added + value;
      }
      assert itemDiscount == LineDiscount(cart, details, i);
    case Unrecognised =>
    }

    assert LoadDetails(repo, coupon) == Ok(details);
    return Ok((CartItemDiscount(item.productId, item.quantity, item.price, itemDiscount), added));
  }

  // ---------------------------------------------------------------------
  // What the updated cart contains
  // ---------------------------------------------------------------------

  /** Every input line appears once, in order, with its product, quantity and
      price unchanged; the total price is the cart total and the final price
      is the total price less the total discount. */
  lemma ApplyShape(repo: Repository, couponId: string, cart: seq<CartItem>)
    requires ApplySpec(repo, couponId, cart).Ok?
    ensures var u := ApplySpec(repo, couponId, cart).value;
            && |u.items| == |cart|
            && (forall k :: 0 <= k < |cart| ==>
                  u.items[k].productId == cart[k].productId && u.items[k].quantity == cart[k].quantity
                  && u.items[k].price == cart[k].price)
            && u.totalPrice == CartTotal(cart)
            && u.finalPrice == u.totalPrice - u.totalDiscount
  {
  }

  /** ApplyCoupon fails, always with "record not found", exactly when no coupon
      has the id, or the cart has a line and the coupon's detail row is missing. */
  lemma ApplyFails(repo: Repository, couponId: string, cart: seq<CartItem>)
    ensures ApplySpec(repo, couponId, cart).Err? ==> ApplySpec(repo, couponId, cart).error == RecordNotFound
    ensures ApplySpec(repo, couponId, cart).Err?
        <==> (forall k :: 0 <= k < |repo.coupons| ==> repo.coupons[k].id != couponId)
             || (cart != [] && LoadDetails(repo, FindCoupon(repo, couponId).value).Err?)
  {
  }

  /** An empty cart comes back empty, with nothing to pay and no discount,
      whatever the coupon's details, as long as the coupon exists. */
  lemma {:induction false} ApplyEmptyCart(repo: Repository, couponId: string)
    requires exists k :: 0 <= k < |repo.coupons| && repo.coupons[k].id == couponId
    ensures ApplySpec(repo, couponId, []) == Ok(UpdatedCart([], 0.0, 0.0, 0.0))
  {
    assert Updated([], NoDetails).items == [];
  }

  /** The sum of the discounts recorded on the lines. */
  function ItemDiscountSum(items: seq<CartItemDiscount>): real
  {
    if items == [] then 0.0 else ItemDiscountSum(items[..|items| - 1]) + items[|items| - 1].totalDiscount
  }

  lemma {:induction false} ContributionsAreLineDiscounts(cart: seq<CartItem>, d: Details, items: seq<CartItemDiscount>, n: nat)
    requires !d.CartWiseDetails? && n <= |cart| == |items|
    requires forall k :: 0 <= k < |cart| ==> items[k] == ItemFor(cart, d, k)
    ensures Contributions(cart, d, n) == ItemDiscountSum(items[..n])
  {
    if n > 0 {
      ContributionsAreLineDiscounts(cart, d, items, n - 1);
      assert items[..n][..n - 1] == items[..n - 1];
    }
  }

  lemma {:induction false} ZeroLinesSumToZero(items: seq<CartItemDiscount>)
    requires forall k :: 0 <= k < |items| ==> items[k].totalDiscount == 0.0
    ensures ItemDiscountSum(items) == 0.0
  {
    if items != [] {
      var init := items[..|items| - 1];
      assert forall k :: 0 <= k < |init| ==> init[k] == items[k];
      ZeroLinesSumToZero(init);
    }
  }

  /** For a product-wise, BxGy or unrecognised coupon the total discount is
      the sum of the discounts recorded on the lines; for a cart-wise coupon
      the lines record nothing, so their sum is zero. */
  lemma {:induction false} TotalIsSumOfLines(repo: Repository, couponId: string, cart: seq<CartItem>)
    requires ApplySpec(repo, couponId, cart).Ok?
    ensures var u := ApplySpec(repo, couponId, cart).value;
            KindOf(FindCoupon(repo, couponId).value.couponType) != CartWise ==> u.totalDiscount == ItemDiscountSum(u.items)
    ensures var u := ApplySpec(repo, couponId, cart).value;
            KindOf(FindCoupon(repo, couponId).value.couponType) == CartWise ==> ItemDiscountSum(u.items) == 0.0
  {
    var coupon := FindCoupon(repo, couponId).value;
    var d := if cart == [] then NoDetails else LoadDetails(repo, coupon).value;
    var u := Updated(cart, d);
    assert ApplySpec(repo, couponId, cart) == Ok(u);
    if d.CartWiseDetails? {
      forall k | 0 <= k < |u.items|
        ensures u.items[k].totalDiscount == 0.0
      {
        assert u.items[k] == ItemFor(cart, d, k);
      }
      ZeroLinesSumToZero(u.items);
    } else {
      ContributionsAreLineDiscounts(cart, d, u.items, |cart|);
      assert u.items[..|cart|] == u.items;
    }
    if KindOf(coupon.couponType) == CartWise && cart != [] {
      assert d.CartWiseDetails?;
    }
  }

  /** On a non-negative cart, a coupon with non-negative details records a
      non-negative discount on every line and adds a non-negative amount for it. */
  lemma {:induction false} LineContributionNonNegative(cart: seq<CartItem>, d: Details, k: nat)
    requires NonNegativeCart(cart) && NonNegativeDetails(d) && k < |cart|
    ensures LineDiscount(cart, d, k) >= 0.0 && LineContribution(cart, d, k) >= 0.0
  {
    var item := cart[k];
    assert item.quantity >= 0 && item.price >= 0.0;
    match d
    case CartWiseDetails(cw) =>
      CartTotalNonNegative(cart);
      assert cw.discount / 100.0 >= 0.0;
      assert PercentOf(cw.discount, CartTotal(cart)) >= 0.0;
    case ProductWiseDetails(pw) =>
      var p := pw.discount / 100.0;
      assert p * (item.quantity as real) >= 0.0;
      assert p * (item.quantity as real) * item.price >= 0.0;
    case BxGyDetails(b, buys, gets) =>
      var count := LineBuyCount(item, buys);
      if 0 < count <= b.repetitionLimit {
        ScaledBundleIsMultiple(cart, gets, count);
        BundleValueNonNegative(cart, gets);
        assert (count as real) * BundleValue(cart, gets) >= 0.0;
      }
    case NoDetails =>
  }

  lemma {:induction false} ContributionsNonNegative(cart: seq<CartItem>, d: Details, n: nat)
    requires NonNegativeCart(cart) && NonNegativeDetails(d) && n <= |cart|
    ensures Contributions(cart, d, n) >= 0.0
  {
    if n > 0 {
      ContributionsNonNegative(cart, d, n - 1);
      LineContributionNonNegative(cart, d, n - 1);
    }
  }

  /** On a non-negative cart and store, ApplyCoupon records no negative line
      discount, its total discount is at least zero, and so the final price
      never exceeds the total price. */
  lemma {:induction false} ApplyTotalNonNegative(repo: Repository, couponId: string, cart: seq<CartItem>)
    requires ApplySpec(repo, couponId, cart).Ok? && NonNegativeCart(cart) && NonNegativeStore(repo)
    ensures var u := ApplySpec(repo, couponId, cart).value;
            && (forall k :: 0 <= k < |u.items| ==> u.items[k].totalDiscount >= 0.0)
            && u.totalDiscount >= 0.0
            && u.finalPrice <= u.totalPrice
  {
    var coupon := FindCoupon(repo, couponId).value;
    var d := if cart == [] then NoDetails else LoadDetails(repo, coupon).value;
    if cart != [] {
      StoredDetailsNonNegative(repo, coupon);
    }
    var u := Updated(cart, d);
    assert ApplySpec(repo, couponId, cart) == Ok(u);
    ContributionsNonNegative(cart, d, |cart|);
    forall k | 0 <= k < |u.items|
      ensures u.items[k].totalDiscount >= 0.0
    {
      assert u.items[k] == ItemFor(cart, d, k);
      LineContributionNonNegative(cart, d, k);
    }
  }

  // ---- cart-wise ----

  lemma {:induction false} CartWisePerLine(cart: seq<CartItem>, cw: CartWiseCoupon, n: nat)
    requires n <= |cart|
    ensures var total := CartTotal(cart);
            Contributions(cart, CartWiseDetails(cw), n)
              == (n as real) * (if total >= cw.threshold then PercentOf(cw.discount, total) else 0.0)
  {
    if n > 0 {
      CartWisePerLine(cart, cw, n - 1);
      var total := CartTotal(cart);
      var each := if total >= cw.threshold then PercentOf(cw.discount, total) else 0.0;
      var d := CartWiseDetails(cw);
      var prev := Contributions(cart, d, n - 1);
      assert prev == ((n - 1) as real) * each;
      assert Contributions(cart, d, n) == prev + each;
      OneMore(prev, each, n - 1);
    }
  }

  /** A cart-wise coupon records nothing on the lines, and its whole-cart
      percentage, when the total reaches the threshold, is added once for
      every line of the cart. */
  lemma {:induction false} ApplyCartWise(repo: Repository, couponId: string, cart: seq<CartItem>)
    requires ApplySpec(repo, couponId, cart).Ok? && cart != []
    requires KindOf(FindCoupon(repo, couponId).value.couponType) == CartWise
    ensures FindCartWise(repo, couponId).Some?
    ensures var cw := FindCartWise(repo, couponId).value;
            var total := CartTotal(cart);
            var u := ApplySpec(repo, couponId, cart).value;
            && (forall k :: 0 <= k < |u.items| ==> u.items[k].totalDiscount == 0.0)
            && u.totalDiscount == (|cart| as real) * (if total >= cw.threshold then PercentOf(cw.discount, total) else 0.0)
  {
    var cw := FindCartWise(repo, couponId).value;
    CartWisePerLine(cart, cw, |cart|);
  }

  // ---- product-wise ----

  lemma {:induction false} ProductWiseContributions(cart: seq<CartItem>, pw: ProductWiseCoupon, n: nat)
    requires n <= |cart|
    ensures Contributions(cart, ProductWiseDetails(pw), n) == MatchingDiscount(cart[..n], pw.productId, pw.discount)
  {
    if n > 0 {
      ProductWiseContributions(cart, pw, n - 1);
      assert cart[..n][..n - 1] == cart[..n - 1];
    }
  }

  /** A product-wise coupon records the percentage on every line of its
      product and nothing elsewhere; the total discount is the discount that
      GetApplicableCoupons lists for it, and without a matching line it is
      zero and the final price is the total price. */
  lemma {:induction false} ApplyProductWise(repo: Repository, couponId: string, cart: seq<CartItem>)
    requires ApplySpec(repo, couponId, cart).Ok? && cart != []
    requires KindOf(FindCoupon(repo, couponId).value.couponType) == ProductWise
    ensures FindProductWise(repo, couponId).Some?
    ensures var pw := FindProductWise(repo, couponId).value;
            var u := ApplySpec(repo, couponId, cart).value;
            && (forall k :: 0 <= k < |u.items| ==>
                  u.items[k].totalDiscount == if cart[k].productId == pw.productId then ProductLineDiscount(pw.discount, cart[k]) else 0.0)
            && u.totalDiscount == MatchingDiscount(cart, pw.productId, pw.discount)
            && (!HasProduct(cart, pw.productId) ==> u.totalDiscount == 0.0 && u.finalPrice == u.totalPrice)
  {
    var pw := FindProductWise(repo, couponId).value;
    ProductWiseContributions(cart, pw, |cart|);
    assert cart[..|cart|] == cart;
    if !HasProduct(cart, pw.productId) {
      UnmatchedProductNoDiscount(cart, pw.productId, pw.discount);
    }
  }

  // ---- BxGy ----

  /** A BxGy coupon records on each line its own trigger count times the value
      of one bundle, when that count lies between one and the repetition limit,
      and nothing otherwise. */
  lemma {:induction false} ApplyBxGy(repo: Repository, couponId: string, cart: seq<CartItem>)
    requires ApplySpec(repo, couponId, cart).Ok? && cart != []
    requires KindOf(FindCoupon(repo, couponId).value.couponType) == BxGy
    ensures FindBxGy(repo, couponId).Some?
    ensures var limit := FindBxGy(repo, couponId).value.repetitionLimit;
            var buys := BuyProductsOf(repo, couponId);
            var u := ApplySpec(repo, couponId, cart).value;
            forall k :: 0 <= k < |u.items| ==>
              u.items[k].totalDiscount
                   == if 0 < LineBuyCount(cart[k], buys) <= limit
                      then (LineBuyCount(cart[k], buys) as real) * BundleValue(cart, GetProductsOf(repo, couponId))
                      else 0.0
  {
    var coupon := FindCoupon(repo, couponId).value;
    assert coupon.id == couponId;
    assert FindBxGy(repo, couponId).Some?;
    var b := FindBxGy(repo, couponId).value;
    var d := BxGyDetails(b, BuyProductsOf(repo, couponId), GetProductsOf(repo, couponId));
    assert ApplySpec(repo, couponId, cart) == Ok(Updated(cart, d)) by {
      assert LoadDetails(repo, coupon) == Ok(d);
    }
    BxGyLines(cart, d);
  }

  /** Every line of a cart updated for BxGy details carries its own trigger
      count of bundles, or nothing when the count is not within the limit. */
  lemma {:induction false} BxGyLines(cart: seq<CartItem>, d: Details)
    requires d.BxGyDetails?
    ensures forall k :: 0 <= k < |cart| ==>
              Updated(cart, d).items[k].totalDiscount
                == if 0 < LineBuyCount(cart[k], d.buys) <= d.bxgy.repetitionLimit
                   then (LineBuyCount(cart[k], d.buys) as real) * BundleValue(cart, d.gets)
                   else 0.0
  {
    var u := Updated(cart, d);
    forall k | 0 <= k < |cart|
      ensures u.items[k].totalDiscount
                == if 0 < LineBuyCount(cart[k], d.buys) <= d.bxgy.repetitionLimit
                   then (LineBuyCount(cart[k], d.buys) as real) * BundleValue(cart, d.gets)
                   else 0.0
    {
      assert u.items[k] == ItemFor(cart, d, k);
      BxGyLine(cart, d, k);
    }
  }

  /** The discount a BxGy coupon records on one line, as a multiple of one bundle. */
  lemma {:induction false} BxGyLine(cart: seq<CartItem>, d: Details, k: nat)
    requires d.BxGyDetails? && k < |cart|
    ensures var count := LineBuyCount(cart[k], d.buys);
            LineDiscount(cart, d, k)
              == if 0 < count <= d.bxgy.repetitionLimit then (count as real) * BundleValue(cart, d.gets) else 0.0
  {
    ScaledBundleIsMultiple(cart, d.gets, LineBuyCount(cart[k], d.buys));
  }

  /** `m` bundles worth `b` each, added up one at a time. */
  function Times(m: nat, b: real): real
  {
    if m == 0 then 0.0 else Times(m - 1, b) + b
  }

  /** Repeated addition is multiplication by the count. */
  lemma {:induction false} TimesIsProduct(m: nat, b: real)
    ensures Times(m, b) == (m as real) * b
  {
    if m > 0 {
      TimesIsProduct(m - 1, b);
      OneMore(Times(m - 1, b), b, m - 1);
    }
  }

  /** Adding `s` bundles to `c` bundles gives `s + c` bundles. */
  lemma {:induction false} TimesAdd(s: nat, c: nat, b: real)
    ensures Times(s, b) + Times(c, b) == Times(s + c, b)
  {
    if c > 0 {
      TimesAdd(s, c - 1, b);
    }
  }

  /** While no line's own count is negative or above the limit, the BxGy
      total over the first `n` lines is their summed counts times one bundle. */
  lemma {:induction false} BxGyContributionsWithinLimit(cart: seq<CartItem>, d: Details, n: nat)
    requires d.BxGyDetails? && n <= |cart|
    requires forall k :: 0 <= k < n ==> 0 <= LineBuyCount(cart[k], d.buys) <= d.bxgy.repetitionLimit
    ensures LineCountSum(cart[..n], d.buys) >= 0
    ensures Contributions(cart, d, n) == (LineCountSum(cart[..n], d.buys) as real) * BundleValue(cart, d.gets)
  {
    BxGyContributionsCounted(cart, d, n);
    TimesIsProduct(LineCountSum(cart[..n], d.buys), BundleValue(cart, d.gets));
  }

  /** The same running total, stated with bundles added up one at a time. */
  lemma {:induction false} BxGyContributionsCounted(cart: seq<CartItem>, d: Details, n: nat)
    requires d.BxGyDetails? && n <= |cart|
    requires forall k :: 0 <= k < n ==> 0 <= LineBuyCount(cart[k], d.buys) <= d.bxgy.repetitionLimit
    ensures LineCountSum(cart[..n], d.buys) >= 0
    ensures Contributions(cart, d, n) == Times(LineCountSum(cart[..n], d.buys), BundleValue(cart, d.gets))
  {
    if n > 0 {
      BxGyContributionsCounted(cart, d, n - 1);
      BxGyLineWithinLimit(cart, d, n - 1);
      LineCountSumStep(cart, d.buys, n);
      TimesAdd(LineCountSum(cart[..n - 1], d.buys), LineBuyCount(cart[n - 1], d.buys), BundleValue(cart, d.gets));
    } else {
      assert cart[..0] == [];
    }
  }

  /** A line whose own count is within the limit adds that count of bundles. */
  lemma {:induction false} BxGyLineWithinLimit(cart: seq<CartItem>, d: Details, k: nat)
    requires d.BxGyDetails? && k < |cart|
    requires 0 <= LineBuyCount(cart[k], d.buys) <= d.bxgy.repetitionLimit
    ensures LineContribution(cart, d, k) == Times(LineBuyCount(cart[k], d.buys), BundleValue(cart, d.gets))
  {
    BxGyLine(cart, d, k);
    TimesIsProduct(LineBuyCount(cart[k], d.buys), BundleValue(cart, d.gets));
  }

  /** The summed buy count of a prefix grows by the next line's count. */
  lemma {:induction false} LineCountSumStep(cart: seq<CartItem>, buys: seq<BxGyBuyProduct>, n: nat)
    requires 0 < n <= |cart|
    ensures LineCountSum(cart[..n], buys) == LineCountSum(cart[..n - 1], buys) + LineBuyCount(cart[n - 1], buys)
  {
    assert cart[..n][..n - 1] == cart[..n - 1] && cart[..n][n - 1] == cart[n - 1];
  }

  /** One step of a running sum of multiples of the same value. */
  lemma OneMore(prev: real, x: real, m: nat)
    requires prev == (m as real) * x
    ensures prev + x == ((m + 1) as real) * x
  {
  }
}
