/** The coupon administration operations of services/coupon.go: CreateCoupon,
    GetCoupons, GetCouponById and DeleteCoupon, over the store's tables. */
module Admin {
  import opened Records
  import opened Numeric
  import opened Store

  // ---------------------------------------------------------------------
  // Reading a coupon back
  // ---------------------------------------------------------------------

  /** The buy rows as the API lists them, in table order. */
  function BuyQuantities(rows: seq<BxGyBuyProduct>): (ps: seq<ProductQuantity>)
    ensures |ps| == |rows|
    ensures forall i :: 0 <= i < |rows| ==> ps[i] == ProductQuantity(rows[i].productId, rows[i].quantity)
  {
    if rows == [] then []
    else BuyQuantities(rows[..|rows| - 1]) + [ProductQuantity(rows[|rows| - 1].productId, rows[|rows| - 1].quantity)]
  }

  function GetQuantities(rows: seq<BxGyGetProduct>): (ps: seq<ProductQuantity>)
    ensures |ps| == |rows|
    ensures forall i :: 0 <= i < |rows| ==> ps[i] == ProductQuantity(rows[i].productId, rows[i].quantity)
  {
    if rows == [] then []
    else GetQuantities(rows[..|rows| - 1]) + [ProductQuantity(rows[|rows| - 1].productId, rows[|rows| - 1].quantity)]
  }

  /** The API view of a coupon's details: the stored threshold and discount
      truncated to integers, and the fields of the other types left zero. */
  function DetailsDto(d: Details): CouponDetails
  {
    match d
    case CartWiseDetails(cw) => NoCouponDetails.(threshold := GoTrunc(cw.threshold), discount := GoTrunc(cw.discount))
    case ProductWiseDetails(pw) => NoCouponDetails.(productId := pw.productId, discount := GoTrunc(pw.discount))
    case BxGyDetails(b, buys, gets) =>
      NoCouponDetails.(repetitionLimit := b.repetitionLimit, buyProducts := BuyQuantities(buys), getProducts := GetQuantities(gets))
    case NoDetails => NoCouponDetails
  }

  /** One stored coupon as GetCoupons and GetCouponById return it: a type
      string outside the three is an error, and so is a missing detail row. */
  function Hydrated(repo: Repository, coupon: Coupon): Result<CouponDto>
  {
    match LoadDetails(repo, coupon)
    case Err(e) => Err(e)
    case Ok(d) => if d.NoDetails? then Err(UnsupportedCouponType) else Ok(CouponDto(coupon.id, coupon.couponType, DetailsDto(d)))
  }

  /** What GetCouponById answers. */
  function CouponById(repo: Repository, id: string): Result<CouponDto>
  {
    match FindCoupon(repo, id)
    case None => Err(RecordNotFound)
    case Some(coupon) => Hydrated(repo, coupon)
  }

  /** What GetCoupons answers after examining `coupons` in order: the first
      failure aborts the whole answer. */
  function AllCoupons(repo: Repository, coupons: seq<Coupon>): Result<seq<CouponDto>>
  {
    if coupons == [] then Ok([])
    else
      match AllCoupons(repo, coupons[..|coupons| - 1])
      case Err(e) => Err(e)
      case Ok(dtos) =>
        match Hydrated(repo, coupons[|coupons| - 1])
        case Err(e) => Err(e)
        case Ok(dto) => Ok(dtos + [dto])
  }

  /** The type switch shared by GetCoupons and GetCouponById. */
  method HydrateCoupon(repo: Repository, coupon: Coupon) returns (r: Result<CouponDto>)
    ensures r == Hydrated(repo, coupon)
  {
    match KindOf(coupon.couponType) {
    case CartWise => r := HydrateCartWise(repo, coupon);
    case ProductWise => r := HydrateProductWise(repo, coupon);
    case BxGy => r := HydrateBxGy(repo, coupon);
    case Unrecognised => r := Err(UnsupportedCouponType);
    }
  }

  method HydrateCartWise(repo: Repository, coupon: Coupon) returns (r: Result<CouponDto>)
    requires KindOf(coupon.couponType) == CartWise
    ensures r == Hydrated(repo, coupon)
  {
    var cartCoupon := FindCartWise(repo, coupon.id);
    if cartCoupon.None? {
      return Err(RecordNotFound);
    }
    assert LoadDetails(repo, coupon) == Ok(CartWiseDetails(cartCoupon.value));
    var details := NoCouponDetails.(threshold := GoTrunc(cartCoupon.value.threshold), discount := GoTrunc(cartCoupon.value.discount));
    r := Ok(CouponDto(coupon.id, coupon.couponType, details));
  }

  method HydrateProductWise(repo: Repository, coupon: Coupon) returns (r: Result<CouponDto>)
    requires KindOf(coupon.couponType) == ProductWise
    ensures r == Hydrated(repo, coupon)
  {
    var productCoupon := FindProductWise(repo, coupon.id);
    if productCoupon.None? {
      return Err(RecordNotFound);
    }
    assert LoadDetails(repo, coupon) == Ok(ProductWiseDetails(productCoupon.value));
    var details := NoCouponDetails.(productId := productCoupon.value.productId, discount := GoTrunc(productCoupon.value.discount));
    r := Ok(CouponDto(coupon.id, coupon.couponType, details));
  }

  /** A BxGy coupon's view, with the loops that list its buy and get products. */
  method HydrateBxGy(repo: Repository, coupon: Coupon) returns (r: Result<CouponDto>)
    requires KindOf(coupon.couponType) == BxGy
    ensures r == Hydrated(repo, coupon)
  {
    var bxgyCoupon := FindBxGy(repo, coupon.id);
    if bxgyCoupon.None? {
      return Err(RecordNotFound);
    }
    var buyProducts := BuyProductsOf(repo, bxgyCoupon.value.couponId);
    var getProducts := GetProductsOf(repo, bxgyCoupon.value.couponId);
    assert LoadDetails(repo, coupon) == Ok(BxGyDetails(bxgyCoupon.value, buyProducts, getProducts));
    var buyProductsDto := ListBuyProducts(buyProducts);
    var getProductsDto := ListGetProducts(getProducts);
    var details := NoCouponDetails.(repetitionLimit := bxgyCoupon.value.repetitionLimit,
                                    buyProducts := buyProductsDto, getProducts := getProductsDto);
    r := Ok(CouponDto(coupon.id, coupon.couponType, details));
  }

  method ListBuyProducts(buyProducts: seq<BxGyBuyProduct>) returns (dtos: seq<ProductQuantity>)
    ensures dtos == BuyQuantities(buyProducts)
  {
    dtos := [];
    for i := 0 to |buyProducts|
      invariant dtos == BuyQuantities(buyProducts[..i])
    {
      assert buyProducts[..i + 1][..i] == buyProducts[..i];
      dtos := dtos + [ProductQuantity(buyProducts[i].productId, buyProducts[i].quantity)];
    }
    assert buyProducts[..|buyProducts|] == buyProducts;
  }

  method ListGetProducts(getProducts: seq<BxGyGetProduct>) returns (dtos: seq<ProductQuantity>)
    ensures dtos == GetQuantities(getProducts)
  {
    dtos := [];
    for i := 0 to |getProducts|
      invariant dtos == GetQuantities(getProducts[..i])
    {
      assert getProducts[..i + 1][..i] == getProducts[..i];
      dtos := dtos + [ProductQuantity(getProducts[i].productId, getProducts[i].quantity)];
    }
    assert getProducts[..|getProducts|] == getProducts;
  }

  method GetCouponById(repo: Repository, id: string) returns (r: Result<CouponDto>)
    ensures r == CouponById(repo, id)
  {
    var coupon := FindCoupon(repo, id);
    if coupon.None? {
      return Err(RecordNotFound);
    }
    r := HydrateCoupon(repo, coupon.value);
  }

  method GetCoupons(repo: Repository) returns (r: Result<seq<CouponDto>>)
    ensures r == AllCoupons(repo, repo.coupons)
  {
    var coupons := repo.coupons;
    var result: seq<CouponDto> := [];
    for k := 0 to |coupons|
      invariant AllCoupons(repo, coupons[..k]) == Ok(result)
    {
      AllCouponsStep(repo, coupons, k);
      var dto := HydrateCoupon(repo, coupons[k]);
      if dto.Err? {
        AllCouponsAborts(repo, coupons, k + 1);
        return Err(dto.error);
      }
      result := result + [dto.value];
    }
    assert coupons[..|coupons|] == coupons;
    return Ok(result);
  }

  /** One more coupon examined: its view is appended, or its failure ends the answer. */
  lemma {:induction false} AllCouponsStep(repo: Repository, coupons: seq<Coupon>, k: nat)
    requires k < |coupons|
    ensures AllCoupons(repo, coupons[..k + 1])
         == match AllCoupons(repo, coupons[..k])
            case Err(e) => Err(e)
            case Ok(dtos) =>
              match Hydrated(repo, coupons[k])
              case Err(e) => Err(e)
              case Ok(dto) => Ok(dtos + [dto])
  {
    assert coupons[..k + 1][..k] == coupons[..k] && coupons[..k + 1][k] == coupons[k];
  }

  /** Once a prefix of the coupons fails, so does the whole answer, with the same error. */
  lemma {:induction false} AllCouponsAborts(repo: Repository, coupons: seq<Coupon>, n: nat)
    requires n <= |coupons| && AllCoupons(repo, coupons[..n]).Err?
    ensures AllCoupons(repo, coupons) == AllCoupons(repo, coupons[..n])
  {
    if n < |coupons| {
      var init := coupons[..|coupons| - 1];
      assert init[..n] == coupons[..n];
      AllCouponsAborts(repo, init, n);
    } else {
      assert coupons[..n] == coupons;
    }
  }

  /** GetCoupons shows the coupons one by one, in table order, and fails
      exactly when one of them cannot be shown. */
  lemma {:induction false} AllCouponsPointwise(repo: Repository, coupons: seq<Coupon>)
    ensures AllCoupons(repo, coupons).Err? <==> exists i :: 0 <= i < |coupons| && Hydrated(repo, coupons[i]).Err?
    ensures AllCoupons(repo, coupons).Ok? ==>
              |AllCoupons(repo, coupons).value| == |coupons|
              && forall i :: 0 <= i < |coupons| ==> Hydrated(repo, coupons[i]) == Ok(AllCoupons(repo, coupons).value[i])
  {
    AllCouponsFails(repo, coupons);
    if AllCoupons(repo, coupons).Ok? {
      AllCouponsShown(repo, coupons);
    }
  }

  lemma {:induction false} AllCouponsFails(repo: Repository, coupons: seq<Coupon>)
    ensures AllCoupons(repo, coupons).Err? <==> exists i :: 0 <= i < |coupons| && Hydrated(repo, coupons[i]).Err?
  {
    if coupons != [] {
      var n := |coupons| - 1;
      var init := coupons[..n];
      AllCouponsFails(repo, init);
      if AllCoupons(repo, init).Err? {
        var i :| 0 <= i < n && Hydrated(repo, init[i]).Err?;
        assert Hydrated(repo, coupons[i]).Err?;
      } else if Hydrated(repo, coupons[n]).Ok? {
        forall i | 0 <= i < |coupons|
          ensures Hydrated(repo, coupons[i]).Ok?
        {
          if i < n {
            assert init[i] == coupons[i];
          }
        }
      }
    }
  }

  lemma {:induction false} AllCouponsShown(repo: Repository, coupons: seq<Coupon>)
    requires AllCoupons(repo, coupons).Ok?
    ensures |AllCoupons(repo, coupons).value| == |coupons|
    ensures forall i :: 0 <= i < |coupons| ==> Hydrated(repo, coupons[i]) == Ok(AllCoupons(repo, coupons).value[i])
  {
    if coupons != [] {
      var n := |coupons| - 1;
      var init := coupons[..n];
      AllCouponsShown(repo, init);
      var shown := AllCoupons(repo, init).value;
      var all := shown + [Hydrated(repo, coupons[n]).value];
      assert AllCoupons(repo, coupons) == Ok(all);
      forall i | 0 <= i < |coupons|
        ensures Hydrated(repo, coupons[i]) == Ok(all[i])
      {
        if i < n {
          assert init[i] == coupons[i];
        }
      }
    }
  }

  /** With distinct ids, GetCoupons lists every stored coupon as GetCouponById
      shows it, and fails exactly when GetCouponById fails on one of them. */
  lemma {:induction false} AllCouponsAreById(repo: Repository)
    requires UniqueIds(repo.coupons)
    ensures var all := AllCoupons(repo, repo.coupons);
            && (all.Err? <==> exists i :: 0 <= i < |repo.coupons| && CouponById(repo, repo.coupons[i].id).Err?)
            && (all.Ok? ==>
                  |all.value| == |repo.coupons|
                  && forall i :: 0 <= i < |repo.coupons| ==> CouponById(repo, repo.coupons[i].id) == Ok(all.value[i]))
  {
    AllCouponsPointwise(repo, repo.coupons);
    forall i | 0 <= i < |repo.coupons|
      ensures CouponById(repo, repo.coupons[i].id) == Hydrated(repo, repo.coupons[i])
    {
      FoundById(repo, repo.coupons[i]);
    }
  }

  /** With distinct ids, looking up a stored coupon's id finds that coupon. */
  lemma FoundById(repo: Repository, c: Coupon)
    requires UniqueIds(repo.coupons) && c in repo.coupons
    ensures FindCoupon(repo, c.id) == Some(c)
  {
    var found := FindCoupon(repo, c.id).value;
    var i :| 0 <= i < |repo.coupons| && repo.coupons[i] == c;
    var j :| 0 <= j < |repo.coupons| && repo.coupons[j] == found;
    assert i == j;
  }

  // ---------------------------------------------------------------------
  // Creating a coupon
  // ---------------------------------------------------------------------

  function BuyRows(couponId: string, ps: seq<ProductQuantity>): (rows: seq<BxGyBuyProduct>)
    ensures |rows| == |ps|
    ensures forall i :: 0 <= i < |ps| ==> rows[i] == BxGyBuyProduct(couponId, ps[i].productId, ps[i].quantity)
  {
    if ps == [] then []
    else BuyRows(couponId, ps[..|ps| - 1]) + [BxGyBuyProduct(couponId, ps[|ps| - 1].productId, ps[|ps| - 1].quantity)]
  }

  function GetRows(couponId: string, ps: seq<ProductQuantity>): (rows: seq<BxGyGetProduct>)
    ensures |rows| == |ps|
    ensures forall i :: 0 <= i < |ps| ==> rows[i] == BxGyGetProduct(couponId, ps[i].productId, ps[i].quantity)
  {
    if ps == [] then []
    else GetRows(couponId, ps[..|ps| - 1]) + [BxGyGetProduct(couponId, ps[|ps| - 1].productId, ps[|ps| - 1].quantity)]
  }

  /** The store after CreateCoupon with the generated id `couponId`: an active
      base row and the detail rows of the requested type, the integer
      threshold and discount stored as decimals; a type string outside the
      three is refused and nothing is stored. */
  function Created(repo: Repository, req: CouponDto, couponId: string): Result<Repository>
  {
    var coupons := repo.coupons + [Coupon(couponId, req.couponType, true)];
    var d := req.details;
    match KindOf(req.couponType)
    case CartWise =>
      Ok(repo.(coupons := coupons,
               cartWise := repo.cartWise + [CartWiseCoupon(couponId, d.threshold as real, d.discount as real)]))
    case ProductWise =>
      Ok(repo.(coupons := coupons,
               productWise := repo.productWise + [ProductWiseCoupon(couponId, d.productId, d.discount as real)]))
    case BxGy =>
      Ok(repo.(coupons := coupons,
               bxgy := repo.bxgy + [BxGyCoupon(couponId, d.repetitionLimit)],
               buyProducts := repo.buyProducts + BuyRows(couponId, d.buyProducts),
               getProducts := repo.getProducts + GetRows(couponId, d.getProducts)))
    case Unrecognised => Err(UnsupportedCouponType)
  }

  method CreateCoupon(repo: Repository, req: CouponDto, couponId: string) returns (r: Result<Repository>)
    ensures r == Created(repo, req, couponId)
  {
    var next := repo.(coupons := repo.coupons + [Coupon(couponId, req.couponType, true)]);
    match KindOf(req.couponType) {
    case CartWise =>
      next := next.(cartWise := next.cartWise + [CartWiseCoupon(couponId, req.details.threshold as real, req.details.discount as real)]);
    case ProductWise =>
      next := next.(productWise := next.productWise + [ProductWiseCoupon(couponId, req.details.productId, req.details.discount as real)]);
    case BxGy =>
      next := next.(bxgy := next.bxgy + [BxGyCoupon(couponId, req.details.repetitionLimit)]);
      ghost var base := next;
      var buys := req.details.buyProducts;
      for i := 0 to |buys|
        invariant next == base.(buyProducts := repo.buyProducts + BuyRows(couponId, buys[..i]))
      {
        assert buys[..i + 1][..i] == buys[..i];
        next := next.(buyProducts := next.buyProducts + [BxGyBuyProduct(couponId, buys[i].productId, buys[i].quantity)]);
      }
      assert buys[..|buys|] == buys;
      base := next;
      var gets := req.details.getProducts;
      for i := 0 to |gets|
        invariant next == base.(getProducts := repo.getProducts + GetRows(couponId, gets[..i]))
      {
        assert gets[..i + 1][..i] == gets[..i];
        next := next.(getProducts := next.getProducts + [BxGyGetProduct(couponId, gets[i].productId, gets[i].quantity)]);
      }
      assert gets[..|gets|] == gets;
    case Unrecognised =>
      return Err(UnsupportedCouponType);
    }
    return Ok(next);
  }

  /** No row of any table carries the id. */
  ghost predicate Fresh(repo: Repository, id: string)
  {
    && (forall k :: 0 <= k < |repo.coupons| ==> repo.coupons[k].id != id)
    && (forall k :: 0 <= k < |repo.cartWise| ==> repo.cartWise[k].couponId != id)
    && (forall k :: 0 <= k < |repo.productWise| ==> repo.productWise[k].couponId != id)
    && FreshBxGy(repo, id)
  }

  /** No row of the three BxGy tables carries the id. */
  ghost predicate FreshBxGy(repo: Repository, id: string)
  {
    && (forall k :: 0 <= k < |repo.bxgy| ==> repo.bxgy[k].couponId != id)
    && (forall k :: 0 <= k < |repo.buyProducts| ==> repo.buyProducts[k].bxgyCouponId != id)
    && (forall k :: 0 <= k < |repo.getProducts| ==> repo.getProducts[k].bxgyCouponId != id)
  }

  /** The details of a request as they can be read back: the fields of the
      requested type, the others zero. */
  function Kept(couponType: string, d: CouponDetails): CouponDetails
  {
    match KindOf(couponType)
    case CartWise => NoCouponDetails.(threshold := d.threshold, discount := d.discount)
    case ProductWise => NoCouponDetails.(productId := d.productId, discount := d.discount)
    case BxGy => NoCouponDetails.(repetitionLimit := d.repetitionLimit, buyProducts := d.buyProducts, getProducts := d.getProducts)
    case Unrecognised => NoCouponDetails
  }

  lemma {:induction false} BuyRowsReadBack(couponId: string, ps: seq<ProductQuantity>)
    ensures BuyQuantities(BuyRows(couponId, ps)) == ps
  {
    var rows := BuyRows(couponId, ps);
    assert forall i :: 0 <= i < |ps| ==> BuyQuantities(rows)[i] == ps[i];
  }

  lemma {:induction false} GetRowsReadBack(couponId: string, ps: seq<ProductQuantity>)
    ensures GetQuantities(GetRows(couponId, ps)) == ps
  {
    var rows := GetRows(couponId, ps);
    assert forall i :: 0 <= i < |ps| ==> GetQuantities(rows)[i] == ps[i];
  }

  /** A coupon created under a fresh id reads back with its id, its type and
      the details of its type, exactly as requested. */
  lemma {:induction false} CreateThenGet(repo: Repository, req: CouponDto, couponId: string)
    requires Fresh(repo, couponId) && KindOf(req.couponType) != Unrecognised
    ensures Created(repo, req, couponId).Ok?
    ensures CouponById(Created(repo, req, couponId).value, couponId)
         == Ok(CouponDto(couponId, req.couponType, Kept(req.couponType, req.details)))
  {
    var next := Created(repo, req, couponId).value;
    var coupon := Coupon(couponId, req.couponType, true);
    assert FindCoupon(next, couponId) == Some(coupon) by {
      FirstAppend(repo.coupons, [coupon], (c: Coupon) => c.id, couponId);
    }
    match KindOf(req.couponType) {
    case CartWise => CartWiseReadBack(repo, req, couponId);
    case ProductWise => ProductWiseReadBack(repo, req, couponId);
    case BxGy => BxGyReadBack(repo, req, couponId);
    }
  }

  lemma {:induction false} CartWiseReadBack(repo: Repository, req: CouponDto, couponId: string)
    requires Fresh(repo, couponId) && KindOf(req.couponType) == CartWise
    ensures Created(repo, req, couponId).Ok?
    ensures Hydrated(Created(repo, req, couponId).value, Coupon(couponId, req.couponType, true))
         == Ok(CouponDto(couponId, req.couponType, Kept(req.couponType, req.details)))
  {
    var next := Created(repo, req, couponId).value;
    var d := req.details;
    var row := CartWiseCoupon(couponId, d.threshold as real, d.discount as real);
    FirstAppend(repo.cartWise, [row], (c: CartWiseCoupon) => c.couponId, couponId);
    GoTruncOfInt(d.threshold);
    GoTruncOfInt(d.discount);
    assert LoadDetails(next, Coupon(couponId, req.couponType, true)) == Ok(CartWiseDetails(row));
  }

  lemma {:induction false} ProductWiseReadBack(repo: Repository, req: CouponDto, couponId: string)
    requires Fresh(repo, couponId) && KindOf(req.couponType) == ProductWise
    ensures Created(repo, req, couponId).Ok?
    ensures Hydrated(Created(repo, req, couponId).value, Coupon(couponId, req.couponType, true))
         == Ok(CouponDto(couponId, req.couponType, Kept(req.couponType, req.details)))
  {
    var next := Created(repo, req, couponId).value;
    var d := req.details;
    var row := ProductWiseCoupon(couponId, d.productId, d.discount as real);
    FirstAppend(repo.productWise, [row], (c: ProductWiseCoupon) => c.couponId, couponId);
    GoTruncOfInt(d.discount);
    assert LoadDetails(next, Coupon(couponId, req.couponType, true)) == Ok(ProductWiseDetails(row));
  }

  lemma {:induction false} BxGyReadBack(repo: Repository, req: CouponDto, couponId: string)
    requires FreshBxGy(repo, couponId) && KindOf(req.couponType) == BxGy
    ensures Created(repo, req, couponId).Ok?
    ensures Hydrated(Created(repo, req, couponId).value, Coupon(couponId, req.couponType, true))
         == Ok(CouponDto(couponId, req.couponType, Kept(req.couponType, req.details)))
  {
    var next := Created(repo, req, couponId).value;
    var d := req.details;
    var row := BxGyCoupon(couponId, d.repetitionLimit);
    var buys := BuyRows(couponId, d.buyProducts);
    var gets := GetRows(couponId, d.getProducts);
    assert LoadDetails(next, Coupon(couponId, req.couponType, true)) == Ok(BxGyDetails(row, buys, gets)) by {
      BxGyRowsCreated(repo, req, couponId);
    }
    BxGyKept(req.couponType, d, couponId);
  }

  /** The rows a BxGy request is stored as read back as the request's BxGy fields. */
  lemma {:induction false} BxGyKept(couponType: string, d: CouponDetails, couponId: string)
    requires KindOf(couponType) == BxGy
    ensures DetailsDto(BxGyDetails(BxGyCoupon(couponId, d.repetitionLimit), BuyRows(couponId, d.buyProducts), GetRows(couponId, d.getProducts)))
         == Kept(couponType, d)
  {
    var buys := BuyRows(couponId, d.buyProducts);
    var gets := GetRows(couponId, d.getProducts);
    assert BuyQuantities(buys) == d.buyProducts by { BuyRowsReadBack(couponId, d.buyProducts); }
    assert GetQuantities(gets) == d.getProducts by { GetRowsReadBack(couponId, d.getProducts); }
  }

  /** A BxGy coupon created under a fresh id has exactly the rows requested. */
  lemma {:induction false} BxGyRowsCreated(repo: Repository, req: CouponDto, couponId: string)
    requires FreshBxGy(repo, couponId) && KindOf(req.couponType) == BxGy
    ensures Created(repo, req, couponId).Ok?
    ensures var next := Created(repo, req, couponId).value;
            && FindBxGy(next, couponId) == Some(BxGyCoupon(couponId, req.details.repetitionLimit))
            && BuyProductsOf(next, couponId) == BuyRows(couponId, req.details.buyProducts)
            && GetProductsOf(next, couponId) == GetRows(couponId, req.details.getProducts)
  {
    var d := req.details;
    FirstAppend(repo.bxgy, [BxGyCoupon(couponId, d.repetitionLimit)], (c: BxGyCoupon) => c.couponId, couponId);
    WhereAdded(repo.buyProducts, BuyRows(couponId, d.buyProducts), (p: BxGyBuyProduct) => p.bxgyCouponId, couponId);
    WhereAdded(repo.getProducts, GetRows(couponId, d.getProducts), (p: BxGyGetProduct) => p.bxgyCouponId, couponId);
  }

  /** Two stores hold the same rows for the id, as far as the service's queries see. */
  ghost predicate SameRowsFor(r1: Repository, r2: Repository, id: string)
  {
    && FindCoupon(r1, id) == FindCoupon(r2, id)
    && FindCartWise(r1, id) == FindCartWise(r2, id)
    && FindProductWise(r1, id) == FindProductWise(r2, id)
    && FindBxGy(r1, id) == FindBxGy(r2, id)
    && BuyProductsOf(r1, id) == BuyProductsOf(r2, id)
    && GetProductsOf(r1, id) == GetProductsOf(r2, id)
  }

  lemma {:induction false} SameRowsSameView(r1: Repository, r2: Repository, id: string)
    requires SameRowsFor(r1, r2, id)
    ensures CouponById(r1, id) == CouponById(r2, id)
  {
    if FindCoupon(r1, id).Some? {
      var c := FindCoupon(r1, id).value;
      assert c.id == id;
      match KindOf(c.couponType) {
      case CartWise => assert LoadDetails(r1, c) == LoadDetails(r2, c);
      case ProductWise => assert LoadDetails(r1, c) == LoadDetails(r2, c);
      case BxGy => assert LoadDetails(r1, c) == LoadDetails(r2, c);
      case Unrecognised =>
      }
    }
  }

  /** Creating a coupon changes what GetCouponById shows for no other id. */
  lemma {:induction false} CreateKeepsOthers(repo: Repository, req: CouponDto, couponId: string, other: string)
    requires other != couponId
    requires Created(repo, req, couponId).Ok?
    ensures CouponById(Created(repo, req, couponId).value, other) == CouponById(repo, other)
  {
    var next := Created(repo, req, couponId).value;
    var d := req.details;
    assert FindCoupon(next, other) == FindCoupon(repo, other) by {
      FirstAppend(repo.coupons, [Coupon(couponId, req.couponType, true)], (c: Coupon) => c.id, other);
    }
    match KindOf(req.couponType) {
    case CartWise =>
      assert FindCartWise(next, other) == FindCartWise(repo, other) by {
        FirstAppend(repo.cartWise, [CartWiseCoupon(couponId, d.threshold as real, d.discount as real)], (c: CartWiseCoupon) => c.couponId, other);
      }
    case ProductWise =>
      assert FindProductWise(next, other) == FindProductWise(repo, other) by {
        FirstAppend(repo.productWise, [ProductWiseCoupon(couponId, d.productId, d.discount as real)], (c: ProductWiseCoupon) => c.couponId, other);
      }
    case BxGy =>
      BxGyCreateKeepsOthers(repo, req, couponId, other);
    }
    SameRowsSameView(next, repo, other);
  }

  lemma {:induction false} BxGyCreateKeepsOthers(repo: Repository, req: CouponDto, couponId: string, other: string)
    requires other != couponId && KindOf(req.couponType) == BxGy
    ensures Created(repo, req, couponId).Ok?
    ensures var next := Created(repo, req, couponId).value;
            && FindBxGy(next, other) == FindBxGy(repo, other)
            && BuyProductsOf(next, other) == BuyProductsOf(repo, other)
            && GetProductsOf(next, other) == GetProductsOf(repo, other)
  {
    var d := req.details;
    FirstAppend(repo.bxgy, [BxGyCoupon(couponId, d.repetitionLimit)], (c: BxGyCoupon) => c.couponId, other);
    var buys := BuyRows(couponId, d.buyProducts);
    var gets := GetRows(couponId, d.getProducts);
    WhereAppend(repo.buyProducts, buys, (p: BxGyBuyProduct) => p.bxgyCouponId, other);
    WhereAbsent(buys, (p: BxGyBuyProduct) => p.bxgyCouponId, other);
    WhereAppend(repo.getProducts, gets, (p: BxGyGetProduct) => p.bxgyCouponId, other);
    WhereAbsent(gets, (p: BxGyGetProduct) => p.bxgyCouponId, other);
    assert Where(repo.buyProducts, (p: BxGyBuyProduct) => p.bxgyCouponId, other) + [] == Where(repo.buyProducts, (p: BxGyBuyProduct) => p.bxgyCouponId, other);
    assert Where(repo.getProducts, (p: BxGyGetProduct) => p.bxgyCouponId, other) + [] == Where(repo.getProducts, (p: BxGyGetProduct) => p.bxgyCouponId, other);
  }

  // ---------------------------------------------------------------------
  // Deleting a coupon
  // ---------------------------------------------------------------------

  /** The store after DeleteCoupon: an unknown id is refused with "coupon not
      found"; otherwise the detail rows of the coupon's type go, then its base
      row. */
  function Deleted(repo: Repository, couponId: string): Result<Repository>
  {
    match FindCoupon(repo, couponId)
    case None => Err(CouponNotFound)
    case Some(coupon) =>
      var rest := WithoutDetails(repo, KindOf(coupon.couponType), couponId);
      Ok(rest.(coupons := Without(repo.coupons, (c: Coupon) => c.id, couponId)))
  }

  /** The detail rows of one coupon removed, by type; a coupon of an
      unrecognised type has none to remove. */
  function WithoutDetails(repo: Repository, kind: CouponKind, couponId: string): Repository
  {
    match kind
    case CartWise => repo.(cartWise := Without(repo.cartWise, (c: CartWiseCoupon) => c.couponId, couponId))
    case ProductWise => repo.(productWise := Without(repo.productWise, (c: ProductWiseCoupon) => c.couponId, couponId))
    case BxGy =>
      repo.(bxgy := Without(repo.bxgy, (c: BxGyCoupon) => c.couponId, couponId),
            buyProducts := Without(repo.buyProducts, (p: BxGyBuyProduct) => p.bxgyCouponId, couponId),
            getProducts := Without(repo.getProducts, (p: BxGyGetProduct) => p.bxgyCouponId, couponId))
    case Unrecognised => repo
  }

  method DeleteCoupon(repo: Repository, couponId: string) returns (r: Result<Repository>)
    ensures r == Deleted(repo, couponId)
  {
    var coupon := FindCoupon(repo, couponId);
    if coupon.None? {
      return Err(CouponNotFound);
    }
    var next := repo;
    match KindOf(coupon.value.couponType) {
    case CartWise =>
      next := next.(cartWise := Without(next.cartWise, (c: CartWiseCoupon) => c.couponId, couponId));
    case ProductWise =>
      next := next.(productWise := Without(next.productWise, (c: ProductWiseCoupon) => c.couponId, couponId));
    case BxGy =>
      next := next.(bxgy := Without(next.bxgy, (c: BxGyCoupon) => c.couponId, couponId));
      next := next.(buyProducts := Without(next.buyProducts, (p: BxGyBuyProduct) => p.bxgyCouponId, couponId));
      next := next.(getProducts := Without(next.getProducts, (p: BxGyGetProduct) => p.bxgyCouponId, couponId));
    case Unrecognised =>
    }
    next := next.(coupons := Without(next.coupons, (c: Coupon) => c.id, couponId));
    return Ok(next);
  }

  /** After a deletion the id is gone: GetCouponById reports no record. */
  lemma {:induction false} DeleteThenGet(repo: Repository, couponId: string)
    requires Deleted(repo, couponId).Ok?
    ensures CouponById(Deleted(repo, couponId).value, couponId) == Err(RecordNotFound)
  {
    var coupons := Deleted(repo, couponId).value.coupons;
    assert coupons == Without(repo.coupons, (c: Coupon) => c.id, couponId);
    forall k | 0 <= k < |coupons|
      ensures coupons[k].id != couponId
    {
      WithoutMembers(repo.coupons, (c: Coupon) => c.id, couponId, coupons[k]);
    }
  }

  /** Deleting a coupon changes what GetCouponById shows for no other id. */
  lemma {:induction false} DeleteKeepsOthers(repo: Repository, couponId: string, other: string)
    requires Deleted(repo, couponId).Ok? && other != couponId
    ensures CouponById(Deleted(repo, couponId).value, other) == CouponById(repo, other)
  {
    var next := Deleted(repo, couponId).value;
    var coupon := FindCoupon(repo, couponId).value;
    assert next.coupons == Without(repo.coupons, (c: Coupon) => c.id, couponId);
    assert FindCoupon(next, other) == FindCoupon(repo, other) by {
      FirstWithout(repo.coupons, (c: Coupon) => c.id, couponId, other);
    }
    match KindOf(coupon.couponType) {
    case CartWise =>
      assert next == repo.(coupons := next.coupons, cartWise := next.cartWise);
      assert FindCartWise(next, other) == FindCartWise(repo, other) by {
        FirstWithout(repo.cartWise, (c: CartWiseCoupon) => c.couponId, couponId, other);
      }
    case ProductWise =>
      assert next == repo.(coupons := next.coupons, productWise := next.productWise);
      assert FindProductWise(next, other) == FindProductWise(repo, other) by {
        FirstWithout(repo.productWise, (c: ProductWiseCoupon) => c.couponId, couponId, other);
      }
    case BxGy =>
      assert next == repo.(coupons := next.coupons, bxgy := next.bxgy, buyProducts := next.buyProducts, getProducts := next.getProducts);
      BxGyRowsKept(repo, next, couponId, other);
    case Unrecognised =>
      assert next == repo.(coupons := next.coupons);
    }
    SameRowsSameView(next, repo, other);
  }

  lemma {:induction false} BxGyRowsKept(repo: Repository, next: Repository, couponId: string, other: string)
    requires other != couponId
    requires next.bxgy == Without(repo.bxgy, (c: BxGyCoupon) => c.couponId, couponId)
    requires next.buyProducts == Without(repo.buyProducts, (p: BxGyBuyProduct) => p.bxgyCouponId, couponId)
    requires next.getProducts == Without(repo.getProducts, (p: BxGyGetProduct) => p.bxgyCouponId, couponId)
    ensures FindBxGy(next, other) == FindBxGy(repo, other)
    ensures BuyProductsOf(next, other) == BuyProductsOf(repo, other)
    ensures GetProductsOf(next, other) == GetProductsOf(repo, other)
  {
    FirstWithout(repo.bxgy, (c: BxGyCoupon) => c.couponId, couponId, other);
    WhereWithout(repo.buyProducts, (p: BxGyBuyProduct) => p.bxgyCouponId, couponId, other);
    WhereWithout(repo.getProducts, (p: BxGyGetProduct) => p.bxgyCouponId, couponId, other);
  }

  /** Deleting a coupon just created under a fresh id gives back the store as it was. */
  lemma {:induction false} CreateThenDelete(repo: Repository, req: CouponDto, couponId: string)
    requires Fresh(repo, couponId) && Created(repo, req, couponId).Ok?
    ensures Deleted(Created(repo, req, couponId).value, couponId) == Ok(repo)
  {
    var next := Created(repo, req, couponId).value;
    var coupon := Coupon(couponId, req.couponType, true);
    var d := req.details;
    var kind := KindOf(req.couponType);
    assert FindCoupon(next, couponId) == Some(coupon) by {
      FirstAppend(repo.coupons, [coupon], (c: Coupon) => c.id, couponId);
    }
    assert Without(next.coupons, (c: Coupon) => c.id, couponId) == repo.coupons by {
      WithoutAdded(repo.coupons, [coupon], (c: Coupon) => c.id, couponId);
    }
    match kind {
    case CartWise =>
      assert WithoutDetails(next, kind, couponId) == repo.(coupons := next.coupons) by {
        WithoutAdded(repo.cartWise, [CartWiseCoupon(couponId, d.threshold as real, d.discount as real)],
                     (c: CartWiseCoupon) => c.couponId, couponId);
      }
    case ProductWise =>
      assert WithoutDetails(next, kind, couponId) == repo.(coupons := next.coupons) by {
        WithoutAdded(repo.productWise, [ProductWiseCoupon(couponId, d.productId, d.discount as real)],
                     (c: ProductWiseCoupon) => c.couponId, couponId);
      }
    case BxGy =>
      assert WithoutDetails(next, kind, couponId) == repo.(coupons := next.coupons) by {
        BxGyDeleteUndoesCreate(repo, req, couponId);
      }
    }
  }

  lemma {:induction false} BxGyDeleteUndoesCreate(repo: Repository, req: CouponDto, couponId: string)
    requires FreshBxGy(repo, couponId) && KindOf(req.couponType) == BxGy
    ensures Created(repo, req, couponId).Ok?
    ensures var next := Created(repo, req, couponId).value;
            && Without(next.bxgy, (c: BxGyCoupon) => c.couponId, couponId) == repo.bxgy
            && Without(next.buyProducts, (p: BxGyBuyProduct) => p.bxgyCouponId, couponId) == repo.buyProducts
            && Without(next.getProducts, (p: BxGyGetProduct) => p.bxgyCouponId, couponId) == repo.getProducts
  {
    var d := req.details;
    WithoutAdded(repo.bxgy, [BxGyCoupon(couponId, d.repetitionLimit)], (c: BxGyCoupon) => c.couponId, couponId);
    WithoutAdded(repo.buyProducts, BuyRows(couponId, d.buyProducts), (p: BxGyBuyProduct) => p.bxgyCouponId, couponId);
    WithoutAdded(repo.getProducts, GetRows(couponId, d.getProducts), (p: BxGyGetProduct) => p.bxgyCouponId, couponId);
  }
}
