/** Worked carts: what GetApplicableCoupons lists for a coupon next to what
    ApplyCoupon does with the same coupon: when the two agree on a BxGy
    coupon, and carts on which they differ. */
module Scenarios {
  import opened Records
  import opened Store
  import opened Discount
  import opened Applicable
  import opened Apply

  /** When no line's own count is negative or above the repetition limit, and
      the raw count is not above it either, the two entry points agree on a
      BxGy coupon: ApplyCoupon's total discount is the capped count times one
      bundle, and GetApplicableCoupons lists the coupon with that same amount
      whenever it lists it. */
  lemma {:induction false} BxGyAgreesWithinLimit(cart: seq<CartItem>, d: Details, coupon: Coupon)
    requires d.BxGyDetails?
    requires forall k :: 0 <= k < |cart| ==> 0 <= LineBuyCount(cart[k], d.buys) <= d.bxgy.repetitionLimit
    requires 0 <= RawBuyCount(cart, d.buys) <= d.bxgy.repetitionLimit
    ensures Updated(cart, d).totalDiscount == BxGyDiscount(cart, d.buys, d.gets, d.bxgy.repetitionLimit)
    ensures RawBuyCount(cart, d.buys) > 0
        ==> Evaluate(cart, CartTotal(cart), coupon, d)
              == Some(ApplicableCoupon(coupon.id, coupon.couponType, Updated(cart, d).totalDiscount))
  {
    BxGyContributionsWithinLimit(cart, d, |cart|);
    assert cart[..|cart|] == cart;
    LineCountsSumToRaw(cart, d.buys);
  }

  const Buy2AGet1B := BxGyDetails(BxGyCoupon("b", 3), [BxGyBuyProduct("b", "A", 2)], [BxGyGetProduct("b", "B", 1)])
  const SevenAsTwoBs := [CartItem("A", 7, 5.0), CartItem("B", 2, 4.0)]

  /** Buy two A, get one B, at most three times; seven A at 5 and two B at 4:
      three triggers, each worth one B at 4, so both operations give 12. */
  lemma BxGyWorkedExample()
    ensures AllDivisible(SevenAsTwoBs, Buy2AGet1B.buys)
    ensures Evaluate(SevenAsTwoBs, CartTotal(SevenAsTwoBs), Coupon("b", BxGyType, true), Buy2AGet1B)
         == Some(ApplicableCoupon("b", BxGyType, 12.0))
    ensures Updated(SevenAsTwoBs, Buy2AGet1B).totalDiscount == 12.0
    ensures Updated(SevenAsTwoBs, Buy2AGet1B).finalPrice == 31.0
  {
    var cart := SevenAsTwoBs;
    var d := Buy2AGet1B;
    assert cart[..1] == [cart[0]];
    assert BuyCount(cart, d.buys[0]) == 3;
    assert RawBuyCount(cart, d.buys) == 3 by {
      assert d.buys[..0] == [];
    }
    assert BundleValue(cart, d.gets) == 4.0 by {
      assert d.gets[..0] == [];
      assert GetProductValue(cart, d.gets[0]) == 4.0;
    }
    assert LineBuyCount(cart[0], d.buys) == 3 by {
      assert d.buys[..0] == [];
    }
    assert LineBuyCount(cart[1], d.buys) == 0 by {
      assert d.buys[..0] == [];
    }
    ScaledBundleIsMultiple(cart, d.gets, 3);
    assert Contributions(cart, d, 2) == 12.0;
  }

  const TenPercentFrom100 := CartWiseDetails(CartWiseCoupon("c", 100.0, 10.0))
  const SubtotalOf150 := [CartItem("A", 1, 100.0), CartItem("B", 1, 50.0)]

  /** Ten percent off from 100, on a two-line cart of 150: the coupon is listed
      with 15, but ApplyCoupon adds the 15 once per line, 30 in all. */
  lemma CartWiseCountedPerLine()
    ensures Evaluate(SubtotalOf150, CartTotal(SubtotalOf150), Coupon("c", CartWiseType, true), TenPercentFrom100)
         == Some(ApplicableCoupon("c", CartWiseType, 15.0))
    ensures Updated(SubtotalOf150, TenPercentFrom100).totalDiscount == 30.0
  {
    var cart := SubtotalOf150;
    assert cart[..1] == [cart[0]];
    assert CartTotal(cart) == 150.0;
    CartWisePerLine(cart, TenPercentFrom100.cartWise, 2);
  }

  const Buy1AGet1BOnce := BxGyDetails(BxGyCoupon("o", 1), [BxGyBuyProduct("o", "A", 1)], [BxGyGetProduct("o", "B", 1)])
  const TwoAsOneB := [CartItem("A", 2, 10.0), CartItem("B", 1, 5.0)]

  /** Buy one A, get one B, at most once; two A and one B at 5: the coupon is
      listed with the count capped at one (5), but ApplyCoupon gives nothing,
      as the A line's own count of two exceeds the limit. */
  lemma BxGyLineAboveLimit()
    ensures AllDivisible(TwoAsOneB, Buy1AGet1BOnce.buys)
    ensures Evaluate(TwoAsOneB, CartTotal(TwoAsOneB), Coupon("o", BxGyType, true), Buy1AGet1BOnce)
         == Some(ApplicableCoupon("o", BxGyType, 5.0))
    ensures Updated(TwoAsOneB, Buy1AGet1BOnce).totalDiscount == 0.0
  {
    var cart := TwoAsOneB;
    var d := Buy1AGet1BOnce;
    assert cart[..1] == [cart[0]];
    assert BuyCount(cart, d.buys[0]) == 2;
    assert RawBuyCount(cart, d.buys) == 2 by {
      assert d.buys[..0] == [];
    }
    assert BundleValue(cart, d.gets) == 5.0 by {
      assert d.gets[..0] == [];
      assert GetProductValue(cart, d.gets[0]) == 5.0;
    }
    assert LineBuyCount(cart[0], d.buys) == 2 by {
      assert d.buys[..0] == [];
    }
    assert LineBuyCount(cart[1], d.buys) == 0 by {
      assert d.buys[..0] == [];
    }
    assert Contributions(cart, d, 2) == 0.0;
  }

  const Buy1AGet1BTwice := BxGyDetails(BxGyCoupon("t", 2), [BxGyBuyProduct("t", "A", 1)], [BxGyGetProduct("t", "B", 1)])
  const TwoLinesOfTwoAs := [CartItem("A", 2, 10.0), CartItem("A", 2, 10.0), CartItem("B", 1, 5.0)]

  /** Buy one A, get one B, at most twice; two lines of two A and one B at 5:
      the coupon is listed with the count of four capped at two (10), but
      ApplyCoupon tests each line's count of two on its own, finds both within
      the limit, and gives 10 on each, 20 in all. */
  lemma BxGySpreadOverLines()
    ensures AllDivisible(TwoLinesOfTwoAs, Buy1AGet1BTwice.buys)
    ensures Evaluate(TwoLinesOfTwoAs, CartTotal(TwoLinesOfTwoAs), Coupon("t", BxGyType, true), Buy1AGet1BTwice)
         == Some(ApplicableCoupon("t", BxGyType, 10.0))
    ensures Updated(TwoLinesOfTwoAs, Buy1AGet1BTwice).totalDiscount == 20.0
  {
    var cart := TwoLinesOfTwoAs;
    var d := Buy1AGet1BTwice;
    assert cart[..1] == [cart[0]];
    assert cart[..2] == [cart[0], cart[1]];
    assert cart[..2][..1] == [cart[0]];
    assert BuyCount(cart[..1], d.buys[0]) == 2;
    assert BuyCount(cart[..2], d.buys[0]) == 4;
    assert BuyCount(cart, d.buys[0]) == 4;
    assert RawBuyCount(cart, d.buys) == 4 by {
      assert d.buys[..0] == [];
    }
    assert BundleValue(cart, d.gets) == 5.0 by {
      assert d.gets[..0] == [];
      assert GetProductValue(cart[..1], d.gets[0]) == 0.0;
      assert GetProductValue(cart[..2], d.gets[0]) == 0.0;
      assert GetProductValue(cart, d.gets[0]) == 5.0;
    }
    assert LineBuyCount(cart[0], d.buys) == 2 && LineBuyCount(cart[1], d.buys) == 2 && LineBuyCount(cart[2], d.buys) == 0 by {
      assert d.buys[..0] == [];
    }
    ScaledBundleIsMultiple(cart, d.gets, 2);
    assert Contributions(cart, d, 3) == 20.0;
  }
}
