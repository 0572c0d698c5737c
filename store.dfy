/** The coupon store as the service sees it: six tables of rows, the two
    kinds of query the service issues against them (the first row with a key,
    and all rows with a key), and the per-type detail fetch that every service
    operation performs after reading a coupon's base row. */
module Store {
  import opened Records
  import opened Discount

  /** The tables' contents, each in the order the store lists its rows. */
  datatype Repository = Repository(
    coupons: seq<Coupon>,
    cartWise: seq<CartWiseCoupon>,
    productWise: seq<ProductWiseCoupon>,
    bxgy: seq<BxGyCoupon>,
    buyProducts: seq<BxGyBuyProduct>,
    getProducts: seq<BxGyGetProduct>)

  /** A `Where(key = id).First(...)` query: the first row with that key, or
      nothing, in which case the store reports that no record was found. */
  function First<T>(rows: seq<T>, key: T -> string, id: string): (r: Option<T>)
    ensures r.Some? ==> r.value in rows && key(r.value) == id
    ensures r.None? <==> forall k :: 0 <= k < |rows| ==> key(rows[k]) != id
  {
    if rows == [] then None
    else if key(rows[0]) == id then Some(rows[0])
    else First(rows[1..], key, id)
  }

  /** A `Where(key = id).Find(...)` query: every row with that key, in table order. */
  function Where<T>(rows: seq<T>, key: T -> string, id: string): (r: seq<T>)
    ensures |r| <= |rows|
  {
    if rows == [] then []
    else (if key(rows[0]) == id then [rows[0]] else []) + Where(rows[1..], key, id)
  }

  /** The rows that a `Where(key = id).Delete(...)` leaves behind. */
  function Without<T>(rows: seq<T>, key: T -> string, id: string): (r: seq<T>)
    ensures |r| <= |rows|
  {
    if rows == [] then []
    else (if key(rows[0]) != id then [rows[0]] else []) + Without(rows[1..], key, id)
  }

  /** The query finds exactly the rows with the key. */
  lemma {:induction false} WhereMembers<T>(rows: seq<T>, key: T -> string, id: string, x: T)
    ensures x in Where(rows, key, id) <==> x in rows && key(x) == id
  {
    if rows != [] {
      WhereMembers(rows[1..], key, id, x);
      assert rows == [rows[0]] + rows[1..];
    }
  }

  /** A deletion keeps exactly the rows with another key. */
  lemma {:induction false} WithoutMembers<T>(rows: seq<T>, key: T -> string, id: string, x: T)
    ensures x in Without(rows, key, id) <==> x in rows && key(x) != id
  {
    if rows != [] {
      WithoutMembers(rows[1..], key, id, x);
      assert rows == [rows[0]] + rows[1..];
    }
  }

  lemma {:induction false} FirstAppend<T>(a: seq<T>, b: seq<T>, key: T -> string, id: string)
    ensures First(a + b, key, id) == if First(a, key, id).Some? then First(a, key, id) else First(b, key, id)
  {
    if a != [] {
      assert (a + b)[1..] == a[1..] + b;
      FirstAppend(a[1..], b, key, id);
    } else {
      assert a + b == b;
    }
  }

  lemma {:induction false} WhereAppend<T>(a: seq<T>, b: seq<T>, key: T -> string, id: string)
    ensures Where(a + b, key, id) == Where(a, key, id) + Where(b, key, id)
  {
    if a != [] {
      assert (a + b)[1..] == a[1..] + b;
      WhereAppend(a[1..], b, key, id);
    } else {
      assert a + b == b;
    }
  }

  /** Removing the rows of one key changes no query about another key. */
  lemma {:induction false} FirstWithout<T>(rows: seq<T>, key: T -> string, gone: string, id: string)
    requires gone != id
    ensures First(Without(rows, key, gone), key, id) == First(rows, key, id)
  {
    if rows != [] {
      FirstWithout(rows[1..], key, gone, id);
      var rest := Without(rows[1..], key, gone);
      if key(rows[0]) != gone {
        assert Without(rows, key, gone) == [rows[0]] + rest;
        assert ([rows[0]] + rest)[1..] == rest;
      } else {
        assert Without(rows, key, gone) == rest;
      }
    }
  }

  lemma {:induction false} WhereWithout<T>(rows: seq<T>, key: T -> string, gone: string, id: string)
    requires gone != id
    ensures Where(Without(rows, key, gone), key, id) == Where(rows, key, id)
  {
    if rows != [] {
      WhereWithout(rows[1..], key, gone, id);
      var rest := Without(rows[1..], key, gone);
      if key(rows[0]) != gone {
        assert Without(rows, key, gone) == [rows[0]] + rest;
        assert ([rows[0]] + rest)[1..] == rest;
      } else {
        assert Without(rows, key, gone) == rest;
      }
    }
  }

  /** A query for a key that no row carries finds nothing. */
  lemma {:induction false} WhereAbsent<T>(rows: seq<T>, key: T -> string, id: string)
    requires forall k :: 0 <= k < |rows| ==> key(rows[k]) != id
    ensures Where(rows, key, id) == []
  {
    if rows != [] {
      WhereAbsent(rows[1..], key, id);
    }
  }

  /** A query for the key that every row carries finds all of them. */
  lemma {:induction false} WhereAll<T>(rows: seq<T>, key: T -> string, id: string)
    requires forall k :: 0 <= k < |rows| ==> key(rows[k]) == id
    ensures Where(rows, key, id) == rows
  {
    if rows != [] {
      WhereAll(rows[1..], key, id);
    }
  }

  lemma {:induction false} WithoutAppend<T>(a: seq<T>, b: seq<T>, key: T -> string, id: string)
    ensures Without(a + b, key, id) == Without(a, key, id) + Without(b, key, id)
  {
    if a != [] {
      assert (a + b)[1..] == a[1..] + b;
      WithoutAppend(a[1..], b, key, id);
    } else {
      assert a + b == b;
    }
  }

  /** Deleting a key that no row carries leaves the table as it was. */
  lemma {:induction false} WithoutAbsent<T>(rows: seq<T>, key: T -> string, id: string)
    requires forall k :: 0 <= k < |rows| ==> key(rows[k]) != id
    ensures Without(rows, key, id) == rows
  {
    if rows != [] {
      WithoutAbsent(rows[1..], key, id);
      assert [rows[0]] + rows[1..] == rows;
    }
  }

  /** Deleting the key that every row carries empties the table. */
  lemma {:induction false} WithoutAll<T>(rows: seq<T>, key: T -> string, id: string)
    requires forall k :: 0 <= k < |rows| ==> key(rows[k]) == id
    ensures Without(rows, key, id) == []
  {
    if rows != [] {
      WithoutAll(rows[1..], key, id);
    }
  }

  /** Querying the key of rows just added, which no earlier row carried, finds exactly them. */
  lemma {:induction false} WhereAdded<T>(rows: seq<T>, added: seq<T>, key: T -> string, id: string)
    requires forall k :: 0 <= k < |rows| ==> key(rows[k]) != id
    requires forall k :: 0 <= k < |added| ==> key(added[k]) == id
    ensures Where(rows + added, key, id) == added
  {
    WhereAppend(rows, added, key, id);
    WhereAbsent(rows, key, id);
    WhereAll(added, key, id);
    assert [] + added == added;
  }

  /** Deleting the key of rows just added, which no earlier row carried, undoes the addition. */
  lemma {:induction false} WithoutAdded<T>(rows: seq<T>, added: seq<T>, key: T -> string, id: string)
    requires forall k :: 0 <= k < |rows| ==> key(rows[k]) != id
    requires forall k :: 0 <= k < |added| ==> key(added[k]) == id
    ensures Without(rows + added, key, id) == rows
  {
    WithoutAppend(rows, added, key, id);
    WithoutAbsent(rows, key, id);
    WithoutAll(added, key, id);
    assert rows + [] == rows;
  }

  // ---- the store's queries (daos/coupon.go) ----

  function FindCoupon(repo: Repository, id: string): Option<Coupon>
  {
    First(repo.coupons, (c: Coupon) => c.id, id)
  }

  function FindCartWise(repo: Repository, couponId: string): Option<CartWiseCoupon>
  {
    First(repo.cartWise, (c: CartWiseCoupon) => c.couponId, couponId)
  }

  function FindProductWise(repo: Repository, couponId: string): Option<ProductWiseCoupon>
  {
    First(repo.productWise, (c: ProductWiseCoupon) => c.couponId, couponId)
  }

  function FindBxGy(repo: Repository, couponId: string): Option<BxGyCoupon>
  {
    First(repo.bxgy, (c: BxGyCoupon) => c.couponId, couponId)
  }

  function BuyProductsOf(repo: Repository, couponId: string): seq<BxGyBuyProduct>
  {
    Where(repo.buyProducts, (p: BxGyBuyProduct) => p.bxgyCouponId, couponId)
  }

  function GetProductsOf(repo: Repository, couponId: string): seq<BxGyGetProduct>
  {
    Where(repo.getProducts, (p: BxGyGetProduct) => p.bxgyCouponId, couponId)
  }

  /** Go panics on an integer division by zero. The divisions made for one
      coupon are those of its own buy rows, fetched once its BxGy row is
      found; this says none of them divides a cart line of its product by zero. */
  predicate CouponDivisible(repo: Repository, cart: seq<CartItem>, coupon: Coupon)
  {
    match LoadDetails(repo, coupon)
    case Ok(BxGyDetails(_, buys, _)) => AllDivisible(cart, buys)
    case _ => true
  }

  /** A store none of whose buy rows divides a cart line by zero is safe for every coupon. */
  lemma {:induction false} StoredBuysDivisible(repo: Repository, cart: seq<CartItem>, coupon: Coupon)
    requires DivisibleRows(cart, repo.buyProducts)
    ensures CouponDivisible(repo, cart, coupon)
  {
    var buys := BuyProductsOf(repo, coupon.id);
    forall j | 0 <= j < |buys|
      ensures Divisible(cart, buys[j])
    {
      WhereMembers(repo.buyProducts, (p: BxGyBuyProduct) => p.bxgyCouponId, coupon.id, buys[j]);
    }
    if KindOf(coupon.couponType) == BxGy && FindBxGy(repo, coupon.id).Some? {
      assert FindBxGy(repo, coupon.id).value.couponId == coupon.id;
    }
  }

  /** Percentages and "get" quantities as a shop would store them: none
      negative, and no negative repetition limit. */
  ghost predicate NonNegativeStore(repo: Repository)
  {
    && (forall c :: c in repo.cartWise ==> c.discount >= 0.0)
    && (forall c :: c in repo.productWise ==> c.discount >= 0.0)
    && (forall b :: b in repo.bxgy ==> b.repetitionLimit >= 0)
    && (forall g :: g in repo.getProducts ==> g.quantity >= 0)
  }

  predicate NonNegativeDetails(d: Details)
  {
    match d
    case CartWiseDetails(cw) => cw.discount >= 0.0
    case ProductWiseDetails(pw) => pw.discount >= 0.0
    case BxGyDetails(b, _, gets) => b.repetitionLimit >= 0 && forall j :: 0 <= j < |gets| ==> gets[j].quantity >= 0
    case NoDetails => true
  }

  /** Details fetched from a non-negative store are non-negative. */
  lemma {:induction false} StoredDetailsNonNegative(repo: Repository, coupon: Coupon)
    requires NonNegativeStore(repo) && LoadDetails(repo, coupon).Ok?
    ensures NonNegativeDetails(LoadDetails(repo, coupon).value)
  {
    var d := LoadDetails(repo, coupon).value;
    if d.BxGyDetails? {
      forall j | 0 <= j < |d.gets|
        ensures d.gets[j].quantity >= 0
      {
        WhereMembers(repo.getProducts, (p: BxGyGetProduct) => p.bxgyCouponId, d.bxgy.couponId, d.gets[j]);
      }
    }
  }

  /** The base rows' ids are distinct, as a primary key makes them. */
  ghost predicate UniqueIds(coupons: seq<Coupon>)
  {
    forall i, j :: 0 <= i < j < |coupons| ==> coupons[i].id != coupons[j].id
  }

  // ---- a coupon's type-specific details ----

  /** The detail rows of one coupon, by type; `NoDetails` for a type string the
      service does not recognise, for which it fetches nothing. */
  datatype Details =
    | CartWiseDetails(cartWise: CartWiseCoupon)
    | ProductWiseDetails(productWise: ProductWiseCoupon)
    | BxGyDetails(bxgy: BxGyCoupon, buys: seq<BxGyBuyProduct>, gets: seq<BxGyGetProduct>)
    | NoDetails

  /** The details are of the coupon's type, are stored rows keyed by its id,
      and, for a BxGy coupon, include every buy and get row of that id. */
  ghost predicate DetailsOf(repo: Repository, coupon: Coupon, d: Details)
  {
    match KindOf(coupon.couponType)
    case CartWise => d.CartWiseDetails? && d.cartWise in repo.cartWise && d.cartWise.couponId == coupon.id
    case ProductWise => d.ProductWiseDetails? && d.productWise in repo.productWise && d.productWise.couponId == coupon.id
    case BxGy =>
      && d.BxGyDetails? && d.bxgy in repo.bxgy && d.bxgy.couponId == coupon.id
      && (forall p :: p in d.buys <==> p in repo.buyProducts && p.bxgyCouponId == coupon.id)
      && (forall p :: p in d.gets <==> p in repo.getProducts && p.bxgyCouponId == coupon.id)
    case Unrecognised => d.NoDetails?
  }

  /** The type switch of services/coupon.go: the detail lookups made for one
      coupon, by type; a type string outside the three fetches nothing. */
  function LoadDetails(repo: Repository, coupon: Coupon): Result<Details>
  {
    match KindOf(coupon.couponType)
    case CartWise =>
      (match FindCartWise(repo, coupon.id)
       case None => Err(RecordNotFound)
       case Some(c) => Ok(CartWiseDetails(c)))
    case ProductWise =>
      (match FindProductWise(repo, coupon.id)
       case None => Err(RecordNotFound)
       case Some(p) => Ok(ProductWiseDetails(p)))
    case BxGy =>
      (match FindBxGy(repo, coupon.id)
       case None => Err(RecordNotFound)
       case Some(b) => Ok(BxGyDetails(b, BuyProductsOf(repo, b.couponId), GetProductsOf(repo, b.couponId))))
    case Unrecognised => Ok(NoDetails)
  }

  /** The details fetched are of the coupon's type and are exactly its stored
      rows; the fetch fails, with "record not found", exactly when the
      coupon's type is one of the three and its table holds no row for the
      coupon's id. */
  lemma {:induction false} LoadDetailsMeaning(repo: Repository, coupon: Coupon)
    ensures LoadDetails(repo, coupon).Ok? ==> DetailsOf(repo, coupon, LoadDetails(repo, coupon).value)
    ensures LoadDetails(repo, coupon).Err? ==> LoadDetails(repo, coupon).error == RecordNotFound
    ensures LoadDetails(repo, coupon).Err?
        <==> match KindOf(coupon.couponType)
             case CartWise => forall k :: 0 <= k < |repo.cartWise| ==> repo.cartWise[k].couponId != coupon.id
             case ProductWise => forall k :: 0 <= k < |repo.productWise| ==> repo.productWise[k].couponId != coupon.id
             case BxGy => forall k :: 0 <= k < |repo.bxgy| ==> repo.bxgy[k].couponId != coupon.id
             case Unrecognised => false
  {
    if KindOf(coupon.couponType) == BxGy && FindBxGy(repo, coupon.id).Some? {
      forall p
        ensures p in BuyProductsOf(repo, coupon.id) <==> p in repo.buyProducts && p.bxgyCouponId == coupon.id
      {
        WhereMembers(repo.buyProducts, (p: BxGyBuyProduct) => p.bxgyCouponId, coupon.id, p);
      }
      forall p
        ensures p in GetProductsOf(repo, coupon.id) <==> p in repo.getProducts && p.bxgyCouponId == coupon.id
      {
        WhereMembers(repo.getProducts, (p: BxGyGetProduct) => p.bxgyCouponId, coupon.id, p);
      }
    }
  }
}
