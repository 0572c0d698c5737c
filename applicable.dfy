/** GetApplicableCoupons (services/coupon.go): every stored coupon is checked
    against the cart, and the ones that apply are listed with their discount. */
module Applicable {
  import opened Records
  import opened Store
  import opened Discount

  /** The verdict on one coupon whose details have been fetched: listed with
      its discount, or not listed. A listed coupon carries the coupon's own id
      and type string, and a type string the service does not recognise is
      never listed. */
  function Evaluate(cart: seq<CartItem>, total: real, coupon: Coupon, d: Details): (r: Option<ApplicableCoupon>)
    ensures r.Some? ==> r.value.couponId == coupon.id && r.value.couponType == coupon.couponType
    ensures d.NoDetails? ==> r.None?
  {
    match d
    case CartWiseDetails(cw) =>
      if total >= cw.threshold
      then Some(ApplicableCoupon(coupon.id, coupon.couponType, PercentOf(cw.discount, total)))
      else None
    case ProductWiseDetails(pw) =>
      if HasProduct(cart, pw.productId)
      then Some(ApplicableCoupon(coupon.id, coupon.couponType, MatchingDiscount(cart, pw.productId, pw.discount)))
      else None
    case BxGyDetails(b, buys, gets) =>
      if RawBuyCount(cart, buys) > 0
      then Some(ApplicableCoupon(coupon.id, coupon.couponType, BxGyDiscount(cart, buys, gets, b.repetitionLimit)))
      else None
    case NoDetails => None
  }

  function Listed(verdict: Option<ApplicableCoupon>): seq<ApplicableCoupon>
  {
    match verdict
    case None => []
    case Some(a) => [a]
  }

  /** What GetApplicableCoupons answers after examining `coupons` in order: the
      first failed detail lookup aborts the whole answer; otherwise the
      applicable coupons, in the order examined. */
  function ApplicableSpec(repo: Repository, cart: seq<CartItem>, coupons: seq<Coupon>): Result<seq<ApplicableCoupon>>
  {
    if coupons == [] then Ok([])
    else
      match ApplicableSpec(repo, cart, coupons[..|coupons| - 1])
      case Err(e) => Err(e)
      case Ok(found) =>
        var coupon := coupons[|coupons| - 1];
        match Verdict(repo, cart, coupon)
        case Err(e) => Err(e)
        case Ok(v) => Ok(found + Listed(v))
  }

  /** The verdict GetApplicableCoupons reaches on one coupon, or the failed lookup that aborts it. */
  function Verdict(repo: Repository, cart: seq<CartItem>, coupon: Coupon): Result<Option<ApplicableCoupon>>
  {
    match LoadDetails(repo, coupon)
    case Err(e) => Err(e)
    case Ok(d) => Ok(Evaluate(cart, CartTotal(cart), coupon, d))
  }

  /** Every coupon the service's loop reaches, that is every coupon before the
      first failed lookup, divides the cart's quantities safely (Go panics on
      a zero divisor); coupons after an aborting lookup are never examined. */
  predicate ReachedDivisible(repo: Repository, cart: seq<CartItem>, coupons: seq<Coupon>)
  {
    forall k :: 0 <= k < |coupons| && ApplicableSpec(repo, cart, coupons[..k]).Ok? ==> CouponDivisible(repo, cart, coupons[k])
  }

  /** The service's loop over all stored coupons. */
  method GetApplicableCoupons(repo: Repository, cart: seq<CartItem>) returns (r: Result<seq<ApplicableCoupon>>)
    requires ReachedDivisible(repo, cart, repo.coupons)
    ensures r == ApplicableSpec(repo, cart, repo.coupons)
  {
    var coupons := repo.coupons;
    var applicableCoupons: seq<ApplicableCoupon> := [];
    var cartTotal := ComputeCartTotal(cart);

    for k := 0 to |coupons|
      invariant ApplicableSpec(repo, cart, coupons[..k]) == Ok(applicableCoupons)
    {
      var coupon := coupons[k];
      assert CouponDivisible(repo, cart, coupon);
      var verdict := CheckCoupon(repo, cart, cartTotal, coupon);
      SpecStep(repo, cart, coupons, k);
      if verdict.Err? {
        FailureAborts(repo, cart, coupons, k + 1);
        return Err(verdict.error);
      }
      if verdict.value.Some? {
        applicableCoupons := applicableCoupons + [verdict.value.value];
      } else {
        assert applicableCoupons + Listed(verdict.value) == applicableCoupons;
      }
    }
    assert coupons[..|coupons|] == coupons;
    return Ok(applicableCoupons);
  }

  /** One more coupon examined: the answer so far extended by its verdict. */
  lemma {:induction false} SpecStep(repo: Repository, cart: seq<CartItem>, coupons: seq<Coupon>, k: nat)
    requires k < |coupons|
    ensures ApplicableSpec(repo, cart, coupons[..k + 1])
         == match ApplicableSpec(repo, cart, coupons[..k])
            case Err(e) => Err(e)
            case Ok(found) =>
              match Verdict(repo, cart, coupons[k])
              case Err(e) => Err(e)
              case Ok(v) => Ok(found + Listed(v))
  {
    assert coupons[..k + 1][..k] == coupons[..k];
  }

  /** The body of the service's loop: the type switch, whose cases are the
      methods below; a type string outside the three is never applicable. */
  method CheckCoupon(repo: Repository, cart: seq<CartItem>, cartTotal: real, coupon: Coupon)
    returns (r: Result<Option<ApplicableCoupon>>)
    requires CouponDivisible(repo, cart, coupon)
    requires cartTotal == CartTotal(cart)
    ensures r == Verdict(repo, cart, coupon)
  {
    match KindOf(coupon.couponType) {
    case CartWise =>
      r := CheckCartWise(repo, cart, cartTotal, coupon);
    case ProductWise =>
      r := CheckProductWise(repo, cart, coupon);
    case BxGy =>
      r := CheckBxGy(repo, cart, coupon);
    case Unrecognised =>
      assert LoadDetails(repo, coupon) == Ok(NoDetails);
      r := Ok(None);
    }
  }

  /** The cart-wise case: the coupon's row, then its percentage of the cart
      total when the total reaches the threshold. */
  method CheckCartWise(repo: Repository, cart: seq<CartItem>, cartTotal: real, coupon: Coupon)
    returns (r: Result<Option<ApplicableCoupon>>)
    requires KindOf(coupon.couponType) == CartWise
    requires cartTotal == CartTotal(cart)
    ensures r == Verdict(repo, cart, coupon)
  {
    var cartCoupon := FindCartWise(repo, coupon.id);
    if cartCoupon.None? {
      return Err(RecordNotFound);
    }
    assert LoadDetails(repo, coupon) == Ok(CartWiseDetails(cartCoupon.value));
    if cartTotal >= cartCoupon.value.threshold {
      var discount := (cartCoupon.value.discount / 100.0) * cartTotal;
      assert discount == PercentOf(cartCoupon.value.discount, cartTotal);
      return Ok(Some(ApplicableCoupon(coupon.id, coupon.couponType, discount)));
    }
    return Ok(None);
  }

  /** The product-wise case: the coupon's row, then the discount summed over
      the lines of its product, applicable when some line matched. */
  method CheckProductWise(repo: Repository, cart: seq<CartItem>, coupon: Coupon)
    returns (r: Result<Option<ApplicableCoupon>>)
    requires KindOf(coupon.couponType) == ProductWise
    ensures r == Verdict(repo, cart, coupon)
  {
    var productCoupon := FindProductWise(repo, coupon.id);
    if productCoupon.None? {
      return Err(RecordNotFound);
    }
    assert LoadDetails(repo, coupon) == Ok(ProductWiseDetails(productCoupon.value));
    var discount, isApplicable := SumMatchingDiscount(cart, productCoupon.value.productId, productCoupon.value.discount);
    if isApplicable {
      return Ok(Some(ApplicableCoupon(coupon.id, coupon.couponType, discount)));
    }
    return Ok(None);
  }

  /** The BxGy case: the coupon's row and its buy and get rows, then the
      trigger count, capped at the repetition limit, times one bundle. */
  method CheckBxGy(repo: Repository, cart: seq<CartItem>, coupon: Coupon)
    returns (r: Result<Option<ApplicableCoupon>>)
    requires CouponDivisible(repo, cart, coupon)
    requires KindOf(coupon.couponType) == BxGy
    ensures r == Verdict(repo, cart, coupon)
  {
    var bxgyCoupon := FindBxGy(repo, coupon.id);
    if bxgyCoupon.None? {
      return Err(RecordNotFound);
    }
    var buyProducts := BuyProductsOf(repo, bxgyCoupon.value.couponId);
    var getProducts := GetProductsOf(repo, bxgyCoupon.value.couponId);
    assert LoadDetails(repo, coupon) == Ok(BxGyDetails(bxgyCoupon.value, buyProducts, getProducts));
    var buyCount := CountBuys(cart, buyProducts);
    if buyCount <= 0 {
      return Ok(None);
    }
    if buyCount > bxgyCoupon.value.repetitionLimit {
      buyCount := bxgyCoupon.value.repetitionLimit;
    }
    var discount := SumBundleValue(cart, getProducts);
    discount := discount * (buyCount as real);
    assert buyCount == EffectiveBuyCount(RawBuyCount(cart, buyProducts), bxgyCoupon.value.repetitionLimit);
    assert discount == BxGyDiscount(cart, buyProducts, getProducts, bxgyCoupon.value.repetitionLimit);
    return Ok(Some(ApplicableCoupon(coupon.id, coupon.couponType, discount)));
  }

  /** Once a prefix of the coupons fails, so does the whole answer, with the same error. */
  lemma {:induction false} FailureAborts(repo: Repository, cart: seq<CartItem>, coupons: seq<Coupon>, n: nat)
    requires n <= |coupons| && ApplicableSpec(repo, cart, coupons[..n]).Err?
    ensures ApplicableSpec(repo, cart, coupons) == ApplicableSpec(repo, cart, coupons[..n])
  {
    if n < |coupons| {
      var init := coupons[..|coupons| - 1];
      assert init[..n] == coupons[..n];
      FailureAborts(repo, cart, init, n);
    } else {
      assert coupons[..n] == coupons;
    }
  }

  // ---------------------------------------------------------------------
  // What the answer contains
  // ---------------------------------------------------------------------

  /** The whole call fails exactly when the detail lookup of some listed
      coupon fails; no partial list is ever returned. */
  lemma {:induction false} FailsIffSomeLookupFails(repo: Repository, cart: seq<CartItem>, coupons: seq<Coupon>)
    ensures ApplicableSpec(repo, cart, coupons).Err?
        <==> exists i :: 0 <= i < |coupons| && LoadDetails(repo, coupons[i]).Err?
  {
    if coupons != [] {
      var n := |coupons| - 1;
      var init := coupons[..n];
      FailsIffSomeLookupFails(repo, cart, init);
      assert ApplicableSpec(repo, cart, coupons).Err?
         <==> ApplicableSpec(repo, cart, init).Err? || LoadDetails(repo, coupons[n]).Err? by {
        FailsStep(repo, cart, coupons);
      }
      assert forall i :: 0 <= i < n ==> init[i] == coupons[i];
    }
  }

  /** One more coupon aborts the answer exactly when the answer so far is
      aborted or that coupon's lookup fails. */
  lemma {:induction false} FailsStep(repo: Repository, cart: seq<CartItem>, coupons: seq<Coupon>)
    requires coupons != []
    ensures ApplicableSpec(repo, cart, coupons).Err?
        <==> ApplicableSpec(repo, cart, coupons[..|coupons| - 1]).Err? || LoadDetails(repo, coupons[|coupons| - 1]).Err?
  {
    var c := coupons[|coupons| - 1];
    assert Verdict(repo, cart, c).Err? <==> LoadDetails(repo, c).Err?;
  }

  /** The entries a sequence of verdicts contributes, in order. */
  function Gather(verdicts: seq<Option<ApplicableCoupon>>): seq<ApplicableCoupon>
  {
    if verdicts == [] then []
    else Gather(verdicts[..|verdicts| - 1]) + Listed(verdicts[|verdicts| - 1])
  }

  /** The verdict reached on each of `coupons`, a failed lookup read as "not listed". */
  function Verdicts(repo: Repository, cart: seq<CartItem>, coupons: seq<Coupon>): seq<Option<ApplicableCoupon>>
  {
    seq(|coupons|, i requires 0 <= i < |coupons| =>
      match Verdict(repo, cart, coupons[i])
      case Ok(v) => v
      case Err(_) => None)
  }

  /** When the answer is not aborted, every lookup succeeded and the answer is
      exactly the entries the verdicts contribute, in order. */
  lemma {:induction false} SpecGathers(repo: Repository, cart: seq<CartItem>, coupons: seq<Coupon>)
    requires ApplicableSpec(repo, cart, coupons).Ok?
    ensures forall i :: 0 <= i < |coupons| ==> Verdict(repo, cart, coupons[i]).Ok?
    ensures ApplicableSpec(repo, cart, coupons).value == Gather(Verdicts(repo, cart, coupons))
  {
    SpecVerdictsOk(repo, cart, coupons);
    SpecIsGathered(repo, cart, coupons);
  }

  lemma {:induction false} SpecVerdictsOk(repo: Repository, cart: seq<CartItem>, coupons: seq<Coupon>)
    requires ApplicableSpec(repo, cart, coupons).Ok?
    ensures forall i :: 0 <= i < |coupons| ==> Verdict(repo, cart, coupons[i]).Ok?
  {
    if coupons != [] {
      var n := |coupons| - 1;
      var init := coupons[..n];
      assert ApplicableSpec(repo, cart, init).Ok? && Verdict(repo, cart, coupons[n]).Ok? by {
        assert coupons[..n + 1] == coupons;
        SpecStep(repo, cart, coupons, n);
      }
      SpecVerdictsOk(repo, cart, init);
      forall i | 0 <= i < n
        ensures Verdict(repo, cart, coupons[i]).Ok?
      {
        assert init[i] == coupons[i];
      }
    }
  }

  lemma {:induction false} SpecIsGathered(repo: Repository, cart: seq<CartItem>, coupons: seq<Coupon>)
    requires ApplicableSpec(repo, cart, coupons).Ok?
    ensures ApplicableSpec(repo, cart, coupons).value == Gather(Verdicts(repo, cart, coupons))
  {
    if coupons != [] {
      var n := |coupons| - 1;
      var init := coupons[..n];
      var last := Verdict(repo, cart, coupons[n]);
      assert ApplicableSpec(repo, cart, init).Ok? && last.Ok?
          && ApplicableSpec(repo, cart, coupons).value == ApplicableSpec(repo, cart, init).value + Listed(last.value) by {
        assert coupons[..n + 1] == coupons;
        SpecStep(repo, cart, coupons, n);
      }
      SpecIsGathered(repo, cart, init);
      var vs := Verdicts(repo, cart, coupons);
      assert vs[..n] == Verdicts(repo, cart, init) by {
        assert forall k :: 0 <= k < n ==> init[k] == coupons[k];
      }
      assert vs[n] == last.value;
    }
  }

  /** Where the gathered entries come from: `pos[k]` is the position of the
      verdict behind the k-th entry, positions increase, and every "applicable"
      verdict contributes one. */
  lemma {:induction false} GatherPositions(verdicts: seq<Option<ApplicableCoupon>>) returns (pos: seq<nat>)
    ensures |pos| == |Gather(verdicts)|
    ensures forall k :: 0 <= k < |pos| ==> pos[k] < |verdicts| && verdicts[pos[k]] == Some(Gather(verdicts)[k])
    ensures forall k, l :: 0 <= k < l < |pos| ==> pos[k] < pos[l]
    ensures forall i :: 0 <= i < |verdicts| && verdicts[i].Some? ==> i in pos
  {
    if verdicts == [] {
      pos := [];
    } else {
      var n := |verdicts| - 1;
      var init := verdicts[..n];
      var pos0 := GatherPositions(init);
      var out := Gather(verdicts);
      assert out == Gather(init) + Listed(verdicts[n]);
      assert forall i :: 0 <= i < n ==> init[i] == verdicts[i];
      if verdicts[n].None? {
        assert out == Gather(init);
        pos := pos0;
      } else {
        pos := pos0 + [n];
        assert out == Gather(init) + [verdicts[n].value];
        assert forall k :: 0 <= k < |pos0| ==> pos[k] == pos0[k];
        assert pos[|pos0|] == n;
      }
    }
  }

  /** The answer lists, in the order of `coupons`, exactly those coupons whose
      verdict is "applicable", each with that verdict's entry. */
  lemma {:induction false} ListingPositions(repo: Repository, cart: seq<CartItem>, coupons: seq<Coupon>) returns (pos: seq<nat>)
    requires ApplicableSpec(repo, cart, coupons).Ok?
    ensures |pos| == |ApplicableSpec(repo, cart, coupons).value|
    ensures forall k :: 0 <= k < |pos| ==>
              pos[k] < |coupons| && Verdict(repo, cart, coupons[pos[k]]) == Ok(Some(ApplicableSpec(repo, cart, coupons).value[k]))
    ensures forall k, l :: 0 <= k < l < |pos| ==> pos[k] < pos[l]
    ensures forall i :: 0 <= i < |coupons| ==>
              Verdict(repo, cart, coupons[i]).Ok? && (Verdict(repo, cart, coupons[i]).value.Some? ==> i in pos)
  {
    SpecGathers(repo, cart, coupons);
    pos := GatherPositions(Verdicts(repo, cart, coupons));
  }

  /** With distinct coupon ids, a stored coupon appears in the answer exactly
      when its verdict is "applicable", and then with that verdict's entry. */
  lemma {:induction false} ListedIffApplicable(repo: Repository, cart: seq<CartItem>, coupon: Coupon)
    requires UniqueIds(repo.coupons) && coupon in repo.coupons
    requires ApplicableSpec(repo, cart, repo.coupons).Ok?
    ensures Verdict(repo, cart, coupon).Ok?
    ensures var out := ApplicableSpec(repo, cart, repo.coupons).value;
            && ((exists a :: a in out && a.couponId == coupon.id) <==> Verdict(repo, cart, coupon).value.Some?)
            && (forall a :: a in out && a.couponId == coupon.id ==> Verdict(repo, cart, coupon).value == Some(a))
  {
    var coupons := repo.coupons;
    var out := ApplicableSpec(repo, cart, coupons).value;
    var pos := ListingPositions(repo, cart, coupons);
    var i :| 0 <= i < |coupons| && coupons[i] == coupon;
    forall a | a in out && a.couponId == coupon.id
      ensures Verdict(repo, cart, coupon).value == Some(a)
    {
      var k :| 0 <= k < |out| && out[k] == a;
      assert coupons[pos[k]].id == coupon.id;
      assert pos[k] == i;
    }
    if Verdict(repo, cart, coupon).value.Some? {
      var k :| 0 <= k < |pos| && pos[k] == i;
      assert out[k] in out && out[k].couponId == coupon.id;
    }
  }

  /** On a non-negative cart, a coupon whose details are non-negative is
      listed, if at all, with a non-negative discount. */
  lemma {:induction false} EvaluateNonNegative(cart: seq<CartItem>, coupon: Coupon, d: Details)
    requires NonNegativeCart(cart) && NonNegativeDetails(d)
    ensures var r := Evaluate(cart, CartTotal(cart), coupon, d);
            r.Some? ==> r.value.discount >= 0.0
  {
    CartTotalNonNegative(cart);
    match d
    case CartWiseDetails(cw) =>
      assert cw.discount / 100.0 >= 0.0;
      assert PercentOf(cw.discount, CartTotal(cart)) >= 0.0;
    case ProductWiseDetails(pw) =>
      MatchingDiscountBounded(cart, pw.productId, pw.discount);
    case BxGyDetails(b, buys, gets) =>
      if RawBuyCount(cart, buys) > 0 {
        BxGyDiscountNonNegative(cart, buys, gets, b.repetitionLimit);
      }
    case NoDetails =>
  }

  /** On a non-negative cart and store, every listed discount is at least zero. */
  lemma {:induction false} ListedDiscountsNonNegative(repo: Repository, cart: seq<CartItem>)
    requires NonNegativeStore(repo) && NonNegativeCart(cart)
    requires ApplicableSpec(repo, cart, repo.coupons).Ok?
    ensures forall a :: a in ApplicableSpec(repo, cart, repo.coupons).value ==> a.discount >= 0.0
  {
    var coupons := repo.coupons;
    var out := ApplicableSpec(repo, cart, coupons).value;
    var pos := ListingPositions(repo, cart, coupons);
    forall a | a in out
      ensures a.discount >= 0.0
    {
      var k :| 0 <= k < |out| && out[k] == a;
      var c := coupons[pos[k]];
      assert Verdict(repo, cart, c) == Ok(Some(a));
      StoredDetailsNonNegative(repo, c);
      EvaluateNonNegative(cart, c, LoadDetails(repo, c).value);
    }
  }

  /** A coupon whose type string is none of the three is never listed. */
  lemma {:induction false} OnlyKnownTypesListed(repo: Repository, cart: seq<CartItem>)
    requires ApplicableSpec(repo, cart, repo.coupons).Ok?
    ensures forall a :: a in ApplicableSpec(repo, cart, repo.coupons).value ==> KindOf(a.couponType) != Unrecognised
  {
    var coupons := repo.coupons;
    var out := ApplicableSpec(repo, cart, coupons).value;
    var pos := ListingPositions(repo, cart, coupons);
    forall a | a in out
      ensures KindOf(a.couponType) != Unrecognised
    {
      var k :| 0 <= k < |out| && out[k] == a;
      var c := coupons[pos[k]];
      assert a.couponType == c.couponType;
    }
  }

  /** A cart-wise coupon is listed exactly when the cart total reaches its
      threshold, with that percentage of the cart total as its discount; below
      the threshold it never appears. */
  lemma {:induction false} CartWiseListed(repo: Repository, cart: seq<CartItem>, coupon: Coupon)
    requires UniqueIds(repo.coupons) && coupon in repo.coupons && KindOf(coupon.couponType) == CartWise
    requires ApplicableSpec(repo, cart, repo.coupons).Ok?
    ensures FindCartWise(repo, coupon.id).Some?
    ensures var cw := FindCartWise(repo, coupon.id).value;
            var out := ApplicableSpec(repo, cart, repo.coupons).value;
            && ((exists a :: a in out && a.couponId == coupon.id) <==> CartTotal(cart) >= cw.threshold)
            && (forall a :: a in out && a.couponId == coupon.id ==>
                  a == ApplicableCoupon(coupon.id, coupon.couponType, PercentOf(cw.discount, CartTotal(cart))))
  {
    ListedIffApplicable(repo, cart, coupon);
  }

  /** A product-wise coupon is listed exactly when some line is of its product,
      with the discount summed over all such lines. */
  lemma {:induction false} ProductWiseListed(repo: Repository, cart: seq<CartItem>, coupon: Coupon)
    requires UniqueIds(repo.coupons) && coupon in repo.coupons && KindOf(coupon.couponType) == ProductWise
    requires ApplicableSpec(repo, cart, repo.coupons).Ok?
    ensures FindProductWise(repo, coupon.id).Some?
    ensures var pw := FindProductWise(repo, coupon.id).value;
            var out := ApplicableSpec(repo, cart, repo.coupons).value;
            && ((exists a :: a in out && a.couponId == coupon.id) <==> HasProduct(cart, pw.productId))
            && (forall a :: a in out && a.couponId == coupon.id ==>
                  a == ApplicableCoupon(coupon.id, coupon.couponType, MatchingDiscount(cart, pw.productId, pw.discount)))
  {
    ListedIffApplicable(repo, cart, coupon);
  }

  /** A BxGy coupon is listed exactly when its raw trigger count is positive,
      with the count capped at the repetition limit times one bundle's value. */
  lemma {:induction false} BxGyListed(repo: Repository, cart: seq<CartItem>, coupon: Coupon)
    requires UniqueIds(repo.coupons) && coupon in repo.coupons && KindOf(coupon.couponType) == BxGy
    requires ApplicableSpec(repo, cart, repo.coupons).Ok?
    ensures FindBxGy(repo, coupon.id).Some?
    ensures var raw := RawBuyCount(cart, BuyProductsOf(repo, coupon.id));
            var out := ApplicableSpec(repo, cart, repo.coupons).value;
            && ((exists a :: a in out && a.couponId == coupon.id) <==> raw > 0)
            && (forall a :: a in out && a.couponId == coupon.id ==> a == BxGyEntry(repo, cart, coupon))
  {
    ListedIffApplicable(repo, cart, coupon);
    assert FindBxGy(repo, coupon.id).Some? by {
      LoadDetailsMeaning(repo, coupon);
    }
    BxGyVerdict(repo, cart, coupon);
    var entry := BxGyEntry(repo, cart, coupon);
    var v := Verdict(repo, cart, coupon).value;
    var out := ApplicableSpec(repo, cart, repo.coupons).value;
    forall a | a in out && a.couponId == coupon.id
      ensures a == entry
    {
      assert v == Some(a);
    }
  }

  /** The entry a BxGy coupon is listed with: the trigger count capped at the
      repetition limit, times one bundle's value. */
  function BxGyEntry(repo: Repository, cart: seq<CartItem>, coupon: Coupon): ApplicableCoupon
    requires FindBxGy(repo, coupon.id).Some?
  {
    var limit := FindBxGy(repo, coupon.id).value.repetitionLimit;
    var raw := RawBuyCount(cart, BuyProductsOf(repo, coupon.id));
    ApplicableCoupon(coupon.id, coupon.couponType,
      (EffectiveBuyCount(raw, limit) as real) * BundleValue(cart, GetProductsOf(repo, coupon.id)))
  }

  lemma {:induction false} BxGyVerdict(repo: Repository, cart: seq<CartItem>, coupon: Coupon)
    requires KindOf(coupon.couponType) == BxGy
    requires FindBxGy(repo, coupon.id).Some?
    ensures Verdict(repo, cart, coupon)
         == Ok(if RawBuyCount(cart, BuyProductsOf(repo, coupon.id)) > 0 then Some(BxGyEntry(repo, cart, coupon)) else None)
  {
    var b := FindBxGy(repo, coupon.id).value;
    var buys := BuyProductsOf(repo, coupon.id);
    var gets := GetProductsOf(repo, coupon.id);
    assert b.couponId == coupon.id;
    var d := BxGyDetails(b, buys, gets);
    assert LoadDetails(repo, coupon) == Ok(d);
    var entry := BxGyEntry(repo, cart, coupon);
    assert BxGyDiscount(cart, buys, gets, b.repetitionLimit) == entry.discount;
    assert Evaluate(cart, CartTotal(cart), coupon, d) == if RawBuyCount(cart, buys) > 0 then Some(entry) else None;
  }
}
