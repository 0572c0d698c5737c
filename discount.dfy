/** The arithmetic of the discount engine in services/coupon.go: the sums the
    service accumulates over a cart, each written once as a function (the
    specification) and once as the loop the service runs (a method proved
    equal to it), with the properties of those sums as lemmas.

    Every sum is a left fold over a prefix, matching the order in which the
    service's `+=` loops visit the lines. */
module Discount {
  import opened Records
  import opened Numeric

  // ---------------------------------------------------------------------
  // Cart total
  // ---------------------------------------------------------------------

  function LineTotal(item: CartItem): real
  {
    (item.quantity as real) * item.price
  }

  /** Sum of quantity × price over the cart. */
  function CartTotal(cart: seq<CartItem>): real
  {
    if cart == [] then 0.0 else CartTotal(cart[..|cart| - 1]) + LineTotal(cart[|cart| - 1])
  }

  /** Quantities and prices that a shop would send: none negative. */
  predicate NonNegativeCart(cart: seq<CartItem>)
  {
    forall i :: 0 <= i < |cart| ==> cart[i].quantity >= 0 && cart[i].price >= 0.0
  }

  lemma {:induction false} CartTotalNonNegative(cart: seq<CartItem>)
    requires NonNegativeCart(cart)
    ensures CartTotal(cart) >= 0.0
  {
    if cart != [] {
      var last := cart[|cart| - 1];
      assert last.quantity >= 0 && last.price >= 0.0;
      CartTotalNonNegative(cart[..|cart| - 1]);
    }
  }

  /** The `cartTotal += float64(item.Quantity) * item.Price` loop. */
  method ComputeCartTotal(cart: seq<CartItem>) returns (total: real)
    ensures total == CartTotal(cart)
  {
    total := 0.0;
    for i := 0 to |cart|
      invariant total == CartTotal(cart[..i])
    {
      assert cart[..i + 1][..i] == cart[..i];
      total := total + (cart[i].quantity as real) * cart[i].price;
    }
    assert cart[..|cart|] == cart;
  }

  // ---------------------------------------------------------------------
  // Cart-wise coupons
  // ---------------------------------------------------------------------

  /** `(Discount / 100) * total`: a percentage of the whole cart. */
  function PercentOf(percent: real, total: real): real
  {
    (percent / 100.0) * total
  }

  // ---------------------------------------------------------------------
  // Product-wise coupons
  // ---------------------------------------------------------------------

  /** `(Discount / 100) * float64(item.Quantity) * item.Price` for one line. */
  function ProductLineDiscount(percent: real, item: CartItem): real
  {
    (percent / 100.0) * (item.quantity as real) * item.price
  }

  predicate HasProduct(cart: seq<CartItem>, productId: string)
  {
    exists i :: 0 <= i < |cart| && cart[i].productId == productId
  }

  /** The product-wise discount: the line discount summed over every line of the product. */
  function MatchingDiscount(cart: seq<CartItem>, productId: string, percent: real): real
  {
    if cart == [] then 0.0
    else
      var last := cart[|cart| - 1];
      MatchingDiscount(cart[..|cart| - 1], productId, percent)
        + (if last.productId == productId then ProductLineDiscount(percent, last) else 0.0)
  }

  /** The product-wise loop of GetApplicableCoupons: it accumulates the
      discount and notes whether any line matched. */
  method SumMatchingDiscount(cart: seq<CartItem>, productId: string, percent: real)
    returns (discount: real, applicable: bool)
    ensures discount == MatchingDiscount(cart, productId, percent)
    ensures applicable <==> HasProduct(cart, productId)
  {
    discount, applicable := 0.0, false;
    for i := 0 to |cart|
      invariant discount == MatchingDiscount(cart[..i], productId, percent)
      invariant applicable <==> HasProduct(cart[..i], productId)
    {
      assert cart[..i + 1][..i] == cart[..i];
      assert cart[..i + 1][i] == cart[i];
      if cart[i].productId == productId {
        discount := discount + (percent / 100.0) * (cart[i].quantity as real) * cart[i].price;
        applicable := true;
      }
    }
    assert cart[..|cart|] == cart;
  }

  /** Without a line of the product there is nothing to discount. */
  lemma {:induction false} UnmatchedProductNoDiscount(cart: seq<CartItem>, productId: string, percent: real)
    requires !HasProduct(cart, productId)
    ensures MatchingDiscount(cart, productId, percent) == 0.0
  {
    if cart != [] {
      var init := cart[..|cart| - 1];
      assert forall i | 0 <= i < |init| :: init[i] == cart[i];
      UnmatchedProductNoDiscount(init, productId, percent);
    }
  }

  /** For a non-negative cart and percentage, the product-wise discount is at
      least zero and at most that percentage of the whole cart. */
  lemma {:induction false} MatchingDiscountBounded(cart: seq<CartItem>, productId: string, percent: real)
    requires NonNegativeCart(cart) && percent >= 0.0
    ensures 0.0 <= MatchingDiscount(cart, productId, percent) <= PercentOf(percent, CartTotal(cart))
  {
    if cart != [] {
      var init, last := cart[..|cart| - 1], cart[|cart| - 1];
      MatchingDiscountBounded(init, productId, percent);
      var p := percent / 100.0;
      assert last.quantity >= 0 && last.price >= 0.0;
      assert LineTotal(last) >= 0.0;
      assert ProductLineDiscount(percent, last) == p * LineTotal(last);
      assert p * LineTotal(last) >= 0.0;
      assert PercentOf(percent, CartTotal(cart)) == PercentOf(percent, CartTotal(init)) + p * LineTotal(last);
    }
  }

  // ---------------------------------------------------------------------
  // BxGy coupons: trigger counts
  // ---------------------------------------------------------------------

  /** Go panics on an integer division by zero; these say that every division
      the count loops actually perform has a nonzero divisor. */
  predicate Divisible(cart: seq<CartItem>, buy: BxGyBuyProduct)
  {
    forall i :: 0 <= i < |cart| && cart[i].productId == buy.productId ==> buy.quantity != 0
  }

  predicate AllDivisible(cart: seq<CartItem>, buys: seq<BxGyBuyProduct>)
  {
    forall j :: 0 <= j < |buys| ==> Divisible(cart, buys[j])
  }

  /** Every buy row the store holds can divide the quantity of every line of its product. */
  predicate DivisibleRows(cart: seq<CartItem>, rows: seq<BxGyBuyProduct>)
  {
    forall b :: b in rows ==> Divisible(cart, b)
  }

  predicate LineDivisible(item: CartItem, buys: seq<BxGyBuyProduct>)
  {
    forall j :: 0 <= j < |buys| && buys[j].productId == item.productId ==> buys[j].quantity != 0
  }

  /** `item.Quantity / buyProduct.Quantity` when the line is of the buy product.
      Go panics on a zero divisor, and the methods that divide require that
      none occurs; this function, which only specifies them, counts such a
      line as 0 so that it and the sums built on it need no precondition. */
  function BuyLineCount(item: CartItem, buy: BxGyBuyProduct): int
  {
    if item.productId == buy.productId && buy.quantity != 0 then GoDiv(item.quantity, buy.quantity) else 0
  }

  /** How often the cart's lines trigger one buy product. */
  function BuyCount(cart: seq<CartItem>, buy: BxGyBuyProduct): int
  {
    if cart == [] then 0 else BuyCount(cart[..|cart| - 1], buy) + BuyLineCount(cart[|cart| - 1], buy)
  }

  /** The raw trigger count of GetApplicableCoupons: summed over buy products and lines. */
  function RawBuyCount(cart: seq<CartItem>, buys: seq<BxGyBuyProduct>): int
  {
    if buys == [] then 0 else RawBuyCount(cart, buys[..|buys| - 1]) + BuyCount(cart, buys[|buys| - 1])
  }

  /** The nested `buyCount += item.Quantity / buyProduct.Quantity` loops of GetApplicableCoupons. */
  method CountBuys(cart: seq<CartItem>, buys: seq<BxGyBuyProduct>) returns (count: int)
    requires AllDivisible(cart, buys)
    ensures count == RawBuyCount(cart, buys)
  {
    count := 0;
    for j := 0 to |buys|
      invariant count == RawBuyCount(cart, buys[..j])
    {
      var buy := buys[j];
      assert buys[..j + 1][..j] == buys[..j] && buys[..j + 1][j] == buy;
      for i := 0 to |cart|
        invariant count == RawBuyCount(cart, buys[..j]) + BuyCount(cart[..i], buy)
      {
        assert cart[..i + 1][..i] == cart[..i] && cart[..i + 1][i] == cart[i];
        if cart[i].productId == buy.productId {
          count := count + GoDiv(cart[i].quantity, buy.quantity);
        }
      }
      assert cart[..|cart|] == cart;
    }
    assert buys[..|buys|] == buys;
  }

  /** The cap applied to the raw count: never above the repetition limit, never
      above the raw count, and equal to one of them. */
  function EffectiveBuyCount(raw: int, limit: int): (n: int)
    ensures n <= limit && n <= raw
    ensures n == raw || n == limit
  {
    if raw > limit then limit else raw
  }

  // ---------------------------------------------------------------------
  // BxGy coupons: the value of one "get" bundle
  // ---------------------------------------------------------------------

  /** `float64(getProduct.Quantity) * item.Price` for a line of the get product. */
  function GetLineValue(get: BxGyGetProduct, item: CartItem): real
  {
    if item.productId == get.productId then (get.quantity as real) * item.price else 0.0
  }

  function GetProductValue(cart: seq<CartItem>, get: BxGyGetProduct): real
  {
    if cart == [] then 0.0 else GetProductValue(cart[..|cart| - 1], get) + GetLineValue(get, cart[|cart| - 1])
  }

  /** The value of one bundle: every get product's quantity priced at every line of that product. */
  function BundleValue(cart: seq<CartItem>, gets: seq<BxGyGetProduct>): real
  {
    if gets == [] then 0.0 else BundleValue(cart, gets[..|gets| - 1]) + GetProductValue(cart, gets[|gets| - 1])
  }

  /** The nested `discount += float64(getProduct.Quantity) * item.Price` loops of GetApplicableCoupons. */
  method SumBundleValue(cart: seq<CartItem>, gets: seq<BxGyGetProduct>) returns (value: real)
    ensures value == BundleValue(cart, gets)
  {
    value := 0.0;
    for j := 0 to |gets|
      invariant value == BundleValue(cart, gets[..j])
    {
      var get := gets[j];
      assert gets[..j + 1][..j] == gets[..j] && gets[..j + 1][j] == get;
      for i := 0 to |cart|
        invariant value == BundleValue(cart, gets[..j]) + GetProductValue(cart[..i], get)
      {
        assert cart[..i + 1][..i] == cart[..i] && cart[..i + 1][i] == cart[i];
        if cart[i].productId == get.productId {
          value := value + (get.quantity as real) * cart[i].price;
        }
      }
      assert cart[..|cart|] == cart;
    }
    assert gets[..|gets|] == gets;
  }

  lemma {:induction false} UnmatchedGetProductIsWorthNothing(cart: seq<CartItem>, get: BxGyGetProduct)
    requires !HasProduct(cart, get.productId)
    ensures GetProductValue(cart, get) == 0.0
  {
    if cart != [] {
      var init := cart[..|cart| - 1];
      assert forall i | 0 <= i < |init| :: init[i] == cart[i];
      UnmatchedGetProductIsWorthNothing(init, get);
    }
  }

  /** A get product with no line in the cart adds nothing to the bundle: the
      engine never adds items to the cart. */
  lemma UnmatchedGetAddsNothing(cart: seq<CartItem>, gets: seq<BxGyGetProduct>, get: BxGyGetProduct)
    requires !HasProduct(cart, get.productId)
    ensures BundleValue(cart, gets + [get]) == BundleValue(cart, gets)
  {
    assert (gets + [get])[..|gets|] == gets;
    UnmatchedGetProductIsWorthNothing(cart, get);
  }

  /** On a non-negative cart, a get product of non-negative quantity is worth at least zero. */
  lemma {:induction false} GetProductValueNonNegative(cart: seq<CartItem>, get: BxGyGetProduct)
    requires NonNegativeCart(cart) && get.quantity >= 0
    ensures GetProductValue(cart, get) >= 0.0
  {
    if cart != [] {
      var init, last := cart[..|cart| - 1], cart[|cart| - 1];
      assert NonNegativeCart(init) by {
        assert forall i :: 0 <= i < |init| ==> init[i] == cart[i];
      }
      GetProductValueNonNegative(init, get);
      assert last.price >= 0.0;
      assert (get.quantity as real) * last.price >= 0.0;
    }
  }

  /** On a non-negative cart, a bundle of non-negative quantities is worth at least zero. */
  lemma {:induction false} BundleValueNonNegative(cart: seq<CartItem>, gets: seq<BxGyGetProduct>)
    requires NonNegativeCart(cart) && forall j :: 0 <= j < |gets| ==> gets[j].quantity >= 0
    ensures BundleValue(cart, gets) >= 0.0
  {
    if gets != [] {
      var init := gets[..|gets| - 1];
      assert forall j :: 0 <= j < |init| ==> init[j] == gets[j];
      BundleValueNonNegative(cart, init);
      GetProductValueNonNegative(cart, gets[|gets| - 1]);
    }
  }

  /** The BxGy discount of GetApplicableCoupons: the capped trigger count times one bundle. */
  function BxGyDiscount(cart: seq<CartItem>, buys: seq<BxGyBuyProduct>, gets: seq<BxGyGetProduct>, limit: int): real
  {
    (EffectiveBuyCount(RawBuyCount(cart, buys), limit) as real) * BundleValue(cart, gets)
  }

  /** A triggered BxGy coupon with a non-negative limit and non-negative get
      quantities gives a non-negative discount on a non-negative cart. */
  lemma {:induction false} BxGyDiscountNonNegative(cart: seq<CartItem>, buys: seq<BxGyBuyProduct>, gets: seq<BxGyGetProduct>, limit: int)
    requires NonNegativeCart(cart) && forall j :: 0 <= j < |gets| ==> gets[j].quantity >= 0
    requires RawBuyCount(cart, buys) > 0 && limit >= 0
    ensures BxGyDiscount(cart, buys, gets, limit) >= 0.0
  {
    BundleValueNonNegative(cart, gets);
    var n := EffectiveBuyCount(RawBuyCount(cart, buys), limit);
    assert (n as real) >= 0.0;
  }

  // ---------------------------------------------------------------------
  // BxGy coupons: the per-line counts of ApplyCoupon
  // ---------------------------------------------------------------------

  /** The trigger count ApplyCoupon computes for one line: that line's quantity
      against every buy product of the same id, and no other line. */
  function LineBuyCount(item: CartItem, buys: seq<BxGyBuyProduct>): int
  {
    if buys == [] then 0 else LineBuyCount(item, buys[..|buys| - 1]) + BuyLineCount(item, buys[|buys| - 1])
  }

  /** The `buyCount += item.Quantity / buyProduct.Quantity` loop of ApplyCoupon. */
  method CountLineBuys(item: CartItem, buys: seq<BxGyBuyProduct>) returns (count: int)
    requires LineDivisible(item, buys)
    ensures count == LineBuyCount(item, buys)
  {
    count := 0;
    for j := 0 to |buys|
      invariant count == LineBuyCount(item, buys[..j])
    {
      assert buys[..j + 1][..j] == buys[..j] && buys[..j + 1][j] == buys[j];
      if item.productId == buys[j].productId {
        count := count + GoDiv(item.quantity, buys[j].quantity);
      }
    }
    assert buys[..|buys|] == buys;
  }

  /** `float64(getProduct.Quantity * buyCount) * cartItem.Price` for a line of the get product. */
  function ScaledGetLineValue(get: BxGyGetProduct, item: CartItem, count: int): real
  {
    if item.productId == get.productId then ((get.quantity * count) as real) * item.price else 0.0
  }

  function ScaledGetProductValue(cart: seq<CartItem>, get: BxGyGetProduct, count: int): real
  {
    if cart == [] then 0.0
    else ScaledGetProductValue(cart[..|cart| - 1], get, count) + ScaledGetLineValue(get, cart[|cart| - 1], count)
  }

  /** What ApplyCoupon attributes to a line whose count is `count`. */
  function ScaledBundleValue(cart: seq<CartItem>, gets: seq<BxGyGetProduct>, count: int): real
  {
    if gets == [] then 0.0
    else ScaledBundleValue(cart, gets[..|gets| - 1], count) + ScaledGetProductValue(cart, gets[|gets| - 1], count)
  }

  /** The nested get-product loops of ApplyCoupon for one line. */
  method SumScaledBundleValue(cart: seq<CartItem>, gets: seq<BxGyGetProduct>, count: int) returns (value: real)
    ensures value == ScaledBundleValue(cart, gets, count)
  {
    value := 0.0;
    for j := 0 to |gets|
      invariant value == ScaledBundleValue(cart, gets[..j], count)
    {
      var get := gets[j];
      assert gets[..j + 1][..j] == gets[..j] && gets[..j + 1][j] == get;
      for i := 0 to |cart|
        invariant value == ScaledBundleValue(cart, gets[..j], count) + ScaledGetProductValue(cart[..i], get, count)
      {
        assert cart[..i + 1][..i] == cart[..i] && cart[..i + 1][i] == cart[i];
        if cart[i].productId == get.productId {
          value := value + ((get.quantity * count) as real) * cart[i].price;
        }
      }
      assert cart[..|cart|] == cart;
    }
    assert gets[..|gets|] == gets;
  }

  lemma {:induction false} ScaledGetProductIsMultiple(cart: seq<CartItem>, get: BxGyGetProduct, count: int)
    ensures ScaledGetProductValue(cart, get, count) == (count as real) * GetProductValue(cart, get)
  {
    if cart != [] {
      var last := cart[|cart| - 1];
      ScaledGetProductIsMultiple(cart[..|cart| - 1], get, count);
      if last.productId == get.productId {
        assert ((get.quantity * count) as real) * last.price == (count as real) * ((get.quantity as real) * last.price);
      }
    }
  }

  /** The amount ApplyCoupon attributes to a line is its count times the value of one bundle. */
  lemma {:induction false} ScaledBundleIsMultiple(cart: seq<CartItem>, gets: seq<BxGyGetProduct>, count: int)
    ensures ScaledBundleValue(cart, gets, count) == (count as real) * BundleValue(cart, gets)
  {
    if gets != [] {
      ScaledBundleIsMultiple(cart, gets[..|gets| - 1], count);
      ScaledGetProductIsMultiple(cart, gets[|gets| - 1], count);
    }
  }

  /** The per-line counts of ApplyCoupon, summed over the cart. */
  function LineCountSum(cart: seq<CartItem>, buys: seq<BxGyBuyProduct>): int
  {
    if cart == [] then 0 else LineCountSum(cart[..|cart| - 1], buys) + LineBuyCount(cart[|cart| - 1], buys)
  }

  lemma {:induction false} RawBuyCountOfEmptyCart(buys: seq<BxGyBuyProduct>)
    ensures RawBuyCount([], buys) == 0
  {
    if buys != [] {
      RawBuyCountOfEmptyCart(buys[..|buys| - 1]);
    }
  }

  /** Adding one line to the cart adds that line's own count to the raw count. */
  lemma {:induction false} RawBuyCountSnoc(cart: seq<CartItem>, item: CartItem, buys: seq<BxGyBuyProduct>)
    ensures RawBuyCount(cart + [item], buys) == RawBuyCount(cart, buys) + LineBuyCount(item, buys)
  {
    assert (cart + [item])[..|cart|] == cart;
    if buys != [] {
      RawBuyCountSnoc(cart, item, buys[..|buys| - 1]);
    }
  }

  /** Summing ApplyCoupon's per-line counts gives GetApplicableCoupons' raw
      count: the two entry points count the same triggers, and differ only in
      how they compare them with the repetition limit. */
  lemma {:induction false} LineCountsSumToRaw(cart: seq<CartItem>, buys: seq<BxGyBuyProduct>)
    ensures LineCountSum(cart, buys) == RawBuyCount(cart, buys)
  {
    if cart == [] {
      RawBuyCountOfEmptyCart(buys);
    } else {
      var init, last := cart[..|cart| - 1], cart[|cart| - 1];
      assert init + [last] == cart;
      LineCountsSumToRaw(init, buys);
      RawBuyCountSnoc(init, last, buys);
    }
  }
}
