/** Coupons: creation with defaults, and the discount a coupon gives a cart. The
    collection is a sequence of documents in insertion order, which is the order
    `findOne` and `deleteOne` scan. */
module Coupons {
  import opened Common

  datatype Coupon = Coupon(
    id: string,
    code: string,
    description: string,
    discountType: string,
    discountValue: real,
    minOrderAmount: real,
    expiryDate: Option<int>,
    isActive: bool,
    createdAt: int)

  /** The body of a create request. A numeric field is None when it is missing or
      does not parse as a number; a date is None when it is falsy and otherwise
      its time value. */
  datatype CouponRequest = CouponRequest(
    code: Option<string>,
    description: Option<string>,
    discountType: Option<string>,
    discountValue: Option<real>,
    minOrderAmount: Option<real>,
    expiryDate: Option<int>)

  datatype Applied = Applied(couponCode: string, discountAmount: real)

  /** POST /: code and description are required; the code is stored upper-cased,
      the type defaults to a percentage, unparsable or zero numbers to 0, and
      every new coupon is active. `id` is the inserted id and `now` the clock. */
  function CreateCoupon(req: CouponRequest, id: string, now: int): (r: Result<Coupon>)
    ensures r.Err? <==> !Filled(req.code) || !Filled(req.description)
    ensures r.Err? ==> r.error.BadRequest? && StatusCode(r.error) == 400
    ensures r.Ok? ==> r.value.isActive && r.value.id == id && r.value.createdAt == now
    ensures r.Ok? ==> r.value.code == ToUpper(req.code.value) && r.value.description == req.description.value
    ensures r.Ok? ==> (r.value.discountType == "percentage" <==> !Filled(req.discountType) || req.discountType.value == "percentage")
    ensures r.Ok? ==> r.value.discountType == (if Filled(req.discountType) then req.discountType.value else "percentage")
    ensures r.Ok? ==> r.value.discountValue == (if Truthy(req.discountValue) then req.discountValue.value else 0.0)
    ensures r.Ok? ==> r.value.minOrderAmount == (if Truthy(req.minOrderAmount) then req.minOrderAmount.value else 0.0)
    ensures r.Ok? ==> r.value.expiryDate == req.expiryDate
  {
    if !Filled(req.code) || !Filled(req.description) then
      Err(BadRequest("code and description are required"))
    else
      Ok(Coupon(id, ToUpper(req.code.value), req.description.value,
                OrElse(req.discountType, "percentage"),
                NumberOrZero(req.discountValue), NumberOrZero(req.minOrderAmount),
                req.expiryDate, true, now))
  }

  predicate Matches(c: Coupon, code: string) {
    c.code == code && c.isActive
  }

  /** `findOne({code, isActive: true})`: the first active coupon with exactly that code. */
  function FindActive(coupons: seq<Coupon>, code: string): (r: Option<nat>)
    ensures r.Some? ==> r.value < |coupons| && Matches(coupons[r.value], code)
    ensures r.Some? ==> forall j :: 0 <= j < r.value ==> !Matches(coupons[j], code)
    ensures r.None? ==> forall j :: 0 <= j < |coupons| ==> !Matches(coupons[j], code)
  {
    if coupons == [] then None
    else if Matches(coupons[0], code) then Some(0)
    else match FindActive(coupons[1..], code)
      case None => None
      case Some(k) => Some(k + 1)
  }

  /** The discount before the cap: a percentage of the cart total for a
      'percentage' coupon, a fixed amount for any other type. */
  function RawDiscount(c: Coupon, cartTotal: real): real {
    if c.discountType == "percentage" then cartTotal * c.discountValue / 100.0 else c.discountValue
  }

  /** POST /apply. `now` is the clock; the cart total is a number sent by the client. */
  function Apply(coupons: seq<Coupon>, code: Option<string>, cartTotal: real, now: int): (r: Result<Applied>)
    ensures !Filled(code) ==> r == Err(BadRequest("coupon code is required"))
    ensures Filled(code) && FindActive(coupons, ToUpper(code.value)).None? ==> r == Err(NotFound)
    ensures r.Ok? ==> r.value.discountAmount <= cartTotal
  {
    if !Filled(code) then Err(BadRequest("coupon code is required"))
    else match FindActive(coupons, ToUpper(code.value))
      case None => Err(NotFound)
      case Some(k) =>
        var c := coupons[k];
        if c.expiryDate.Some? && c.expiryDate.value < now then Err(BadRequest("coupon expired"))
        else if c.minOrderAmount != 0.0 && cartTotal < c.minOrderAmount then Err(BadRequest("minimum order amount required"))
        else
          var d := RawDiscount(c, cartTotal);
          Ok(Applied(c.code, if d > cartTotal then cartTotal else d))
  }

  /** What applying a code decides once the coupon `coupons[k]` is found: the
      expiry check, then the minimum-order check, then the capped discount. */
  lemma ApplyOutcome(coupons: seq<Coupon>, code: string, cartTotal: real, now: int) returns (k: nat)
    requires code != ""
    requires FindActive(coupons, ToUpper(code)).Some?
    ensures k < |coupons| && Matches(coupons[k], ToUpper(code))
    ensures forall j :: 0 <= j < k ==> !Matches(coupons[j], ToUpper(code))
    ensures coupons[k].expiryDate.Some? && coupons[k].expiryDate.value < now ==>
      Apply(coupons, Some(code), cartTotal, now) == Err(BadRequest("coupon expired"))
    ensures (!(coupons[k].expiryDate.Some? && coupons[k].expiryDate.value < now) &&
             coupons[k].minOrderAmount != 0.0 && cartTotal < coupons[k].minOrderAmount) ==>
      Apply(coupons, Some(code), cartTotal, now) == Err(BadRequest("minimum order amount required"))
    ensures Apply(coupons, Some(code), cartTotal, now).Ok? <==>
      !(coupons[k].expiryDate.Some? && coupons[k].expiryDate.value < now) &&
      !(coupons[k].minOrderAmount != 0.0 && cartTotal < coupons[k].minOrderAmount)
    ensures Apply(coupons, Some(code), cartTotal, now).Ok? ==>
      Apply(coupons, Some(code), cartTotal, now).value.couponCode == ToUpper(code)
    ensures Apply(coupons, Some(code), cartTotal, now).Ok? && coupons[k].discountType == "percentage" ==>
      Apply(coupons, Some(code), cartTotal, now).value.discountAmount ==
        Min(cartTotal * coupons[k].discountValue / 100.0, cartTotal)
    ensures Apply(coupons, Some(code), cartTotal, now).Ok? && coupons[k].discountType != "percentage" ==>
      Apply(coupons, Some(code), cartTotal, now).value.discountAmount == Min(coupons[k].discountValue, cartTotal)
  {
    k := FindActive(coupons, ToUpper(code)).value;
    var r := Apply(coupons, Some(code), cartTotal, now);
    if r.Ok? {
      var d := RawDiscount(coupons[k], cartTotal);
      assert r.value.discountAmount == if d > cartTotal then cartTotal else d;
      assert r.value.discountAmount == Min(d, cartTotal);
    }
  }

  function Min(a: real, b: real): real {
    if a <= b then a else b
  }

  /** For a cart worth something and coupons that take off non-negative amounts,
      the discount lies between 0 and the cart total. */
  lemma DiscountWithinCart(coupons: seq<Coupon>, code: string, cartTotal: real, now: int)
    requires Apply(coupons, Some(code), cartTotal, now).Ok?
    requires cartTotal >= 0.0
    requires forall c :: c in coupons ==> 0.0 <= c.discountValue
    ensures 0.0 <= Apply(coupons, Some(code), cartTotal, now).value.discountAmount <= cartTotal
  {
    var k := FindActive(coupons, ToUpper(code)).value;
    assert coupons[k] in coupons;
    RawDiscountNonNegative(coupons[k], cartTotal);
  }

  lemma RawDiscountNonNegative(c: Coupon, cartTotal: real)
    requires cartTotal >= 0.0 && c.discountValue >= 0.0
    ensures RawDiscount(c, cartTotal) >= 0.0
  {
    if c.discountType == "percentage" {
      assert 0.0 <= cartTotal * c.discountValue;
    }
  }

  /** The lookup ignores case: sending a code in any spelling gives the same
      answer as sending it upper-cased. */
  lemma ApplyIgnoresCase(coupons: seq<Coupon>, code: string, cartTotal: real, now: int)
    ensures Apply(coupons, Some(code), cartTotal, now) == Apply(coupons, Some(ToUpper(code)), cartTotal, now)
  {
    ToUpperIdempotent(code);
  }

  /** A coupon created with some code, and the only active one with that code,
      is found by applying the code in any spelling that upper-cases the same;
      with no expiry and no minimum it applies. */
  lemma CreatedCouponApplies(coupons: seq<Coupon>, req: CouponRequest, id: string, now: int,
                             code: string, cartTotal: real, later: int)
    requires CreateCoupon(req, id, now).Ok?
    requires forall c :: c in coupons ==> !Matches(c, ToUpper(req.code.value))
    requires ToUpper(code) == ToUpper(req.code.value)
    requires req.expiryDate.None? && !Truthy(req.minOrderAmount)
    ensures code != ""
    ensures Apply(coupons + [CreateCoupon(req, id, now).value], Some(code), cartTotal, later).Ok?
    ensures Apply(coupons + [CreateCoupon(req, id, now).value], Some(code), cartTotal, later).value.couponCode == ToUpper(req.code.value)
  {
    var c := CreateCoupon(req, id, now).value;
    var all := coupons + [c];
    ToUpperIdempotent(req.code.value);
    assert |code| == |req.code.value|;
    assert Matches(all[|coupons|], ToUpper(code));
    var k := ApplyOutcome(all, code, cartTotal, later);
  }

  /** DELETE /:id: an invalid ObjectId throws (500); no coupon with that id is 404;
      otherwise the first coupon with that id is removed. */
  function Delete(coupons: seq<Coupon>, id: string): (r: Result<seq<Coupon>>)
    ensures ObjectIdOf(id).None? ==> r == Err(ServerError)
    ensures ObjectIdOf(id).Some? ==> (r == Err(NotFound) <==> forall c :: c in coupons ==> c.id != ObjectIdOf(id).value)
    ensures r.Ok? ==> |r.value| == |coupons| - 1
    ensures r.Ok? ==> forall c :: c in coupons && c.id != ObjectIdOf(id).value ==> c in r.value
    ensures r.Ok? ==> forall c :: c in r.value ==> c in coupons
  {
    match ObjectIdOf(id)
    case None => Err(ServerError)
    case Some(oid) =>
      match FirstWithId(coupons, oid)
      case None => Err(NotFound)
      case Some(k) =>
        var rest := coupons[..k] + coupons[k + 1..];
        assert forall c :: c in coupons && c.id != oid ==> c in rest by {
          forall c | c in coupons && c.id != oid ensures c in rest {
            var j :| 0 <= j < |coupons| && coupons[j] == c;
            if j < k { assert rest[j] == c; } else { assert j != k; assert rest[j - 1] == c; }
          }
        }
        Ok(rest)
  }

  function FirstWithId(coupons: seq<Coupon>, id: string): (r: Option<nat>)
    ensures r.Some? ==> r.value < |coupons| && coupons[r.value].id == id
    ensures r.None? <==> forall c :: c in coupons ==> c.id != id
  {
    if coupons == [] then None
    else if coupons[0].id == id then Some(0)
    else match FirstWithId(coupons[1..], id)
      case None => None
      case Some(k) => Some(k + 1)
  }

  /** With distinct ids, a deleted coupon is gone for good. */
  lemma DeleteRemovesCoupon(coupons: seq<Coupon>, id: string)
    requires Delete(coupons, id).Ok?
    requires forall j, k :: 0 <= j < k < |coupons| ==> coupons[j].id != coupons[k].id
    ensures forall c :: c in Delete(coupons, id).value ==> c.id != ObjectIdOf(id).value
  {
    var oid := ObjectIdOf(id).value;
    var k := FirstWithId(coupons, oid).value;
    var rest := Delete(coupons, id).value;
    assert rest == coupons[..k] + coupons[k + 1..];
    forall c | c in rest ensures c.id != oid {
      var j :| 0 <= j < |rest| && rest[j] == c;
      if j < k { assert rest[j] == coupons[j]; } else { assert rest[j] == coupons[j + 1]; }
    }
  }
}
