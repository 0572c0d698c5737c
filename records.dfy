/** The records the coupon service passes around: the request and response
    shapes (dtos/coupon.go) and the stored rows (models/coupon.go), plus the
    Option/Result wrappers used for the service's error returns. */
module Records {

  datatype Option<+T> = None | Some(value: T)

  /** The errors the service can return. `RecordNotFound` is the store's
      "no row matches" error, passed through unchanged; `CouponNotFound` is the
      message DeleteCoupon substitutes for it; `UnsupportedCouponType` is the
      service's own error for a type string outside the three it knows. */
  datatype Failure = RecordNotFound | CouponNotFound | UnsupportedCouponType

  datatype Result<+T> = Ok(value: T) | Err(error: Failure)

  // ---- request / response shapes ----

  /** One cart line: a product, how many units, and the unit price. */
  datatype CartItem = CartItem(productId: string, quantity: int, price: real)

  /** One entry of the applicable-coupons answer. */
  datatype ApplicableCoupon = ApplicableCoupon(couponId: string, couponType: string, discount: real)

  /** One line of an updated cart: the input line and the discount attributed to it. */
  datatype CartItemDiscount = CartItemDiscount(productId: string, quantity: int, price: real, totalDiscount: real)

  datatype UpdatedCart = UpdatedCart(items: seq<CartItemDiscount>, totalPrice: real, totalDiscount: real, finalPrice: real)

  datatype ProductQuantity = ProductQuantity(productId: string, quantity: int)

  /** The type-dependent details of a coupon as the API shows them; the
      fields that do not belong to the coupon's type keep their zero values. */
  datatype CouponDetails = CouponDetails(
    threshold: int,
    discount: int,
    productId: string,
    quantity: int,
    buyProducts: seq<ProductQuantity>,
    getProducts: seq<ProductQuantity>,
    repetitionLimit: int)

  const NoCouponDetails := CouponDetails(0, 0, "", 0, [], [], 0)

  /** A coupon as the API receives (on creation) and returns it. */
  datatype CouponDto = CouponDto(id: string, couponType: string, details: CouponDetails)

  // ---- stored rows ----

  /** The base row of every coupon; creation and update times are not modelled. */
  datatype Coupon = Coupon(id: string, couponType: string, isActive: bool)

  datatype CartWiseCoupon = CartWiseCoupon(couponId: string, threshold: real, discount: real)

  datatype ProductWiseCoupon = ProductWiseCoupon(couponId: string, productId: string, discount: real)

  datatype BxGyCoupon = BxGyCoupon(couponId: string, repetitionLimit: int)

  datatype BxGyBuyProduct = BxGyBuyProduct(bxgyCouponId: string, productId: string, quantity: int)

  datatype BxGyGetProduct = BxGyGetProduct(bxgyCouponId: string, productId: string, quantity: int)

  // ---- coupon types ----

  const CartWiseType: string := "cart-wise"
  const ProductWiseType: string := "product-wise"
  const BxGyType: string := "bxgy"

  /** The three type strings the service dispatches on, and everything else. */
  datatype CouponKind = CartWise | ProductWise | BxGy | Unrecognised

  function KindOf(couponType: string): CouponKind
  {
    if couponType == CartWiseType then CartWise
    else if couponType == ProductWiseType then ProductWise
    else if couponType == BxGyType then BxGy
    else Unrecognised
  }
}
