/** Product rules of routes/products.js: the store-hours parser and the open-store
    filter of the listing, the validation and defaults of product creation, and the
    approval-status update. The day of the week and the minutes since midnight in the
    store's time zone are inputs; computing them from the clock is not modelled. */
module Products {
  import opened Common
  import Sequences

  // ---------------------------------------------------------------------------
  // Text helpers: `split` and `parseInt(s, 10)`

  /** `s.split(c)`: the pieces between occurrences of `c`; never empty. */
  function Split(s: string, c: char): (r: seq<string>)
    ensures |r| >= 1
  {
    if s == [] then [""]
    else
      var rest := Split(s[1..], c);
      if s[0] == c then [""] + rest else [[s[0]] + rest[0]] + rest[1..]
  }

  lemma {:induction false} SplitAt(a: string, c: char, b: string)
    requires c !in a
    ensures Split(a + [c] + b, c) == [a] + Split(b, c)
  {
    if a == [] {
      assert a + [c] + b == [c] + b;
      assert ([c] + b)[1..] == b;
    } else {
      assert (a + [c] + b)[1..] == a[1..] + [c] + b;
      SplitAt(a[1..], c, b);
      assert [a[0]] + a[1..] == a;
    }
  }

  lemma {:induction false} SplitWhole(a: string, c: char)
    requires c !in a
    ensures Split(a, c) == [a]
  {
    if a != [] {
      SplitWhole(a[1..], c);
      assert [a[0]] + a[1..] == a;
    }
  }

  predicate IsDigit(ch: char) { '0' <= ch <= '9' }

  predicate AllDigits(s: string) { forall i :: 0 <= i < |s| ==> IsDigit(s[i]) }

  function DigitsValue(d: string): nat
    requires AllDigits(d)
  {
    if d == [] then 0 else 10 * DigitsValue(d[..|d| - 1]) + (d[|d| - 1] as int - '0' as int)
  }

  /** Number of leading decimal digits. */
  function DigitPrefix(s: string): (n: nat)
    ensures n <= |s| && AllDigits(s[..n])
    ensures n < |s| ==> !IsDigit(s[n])
  {
    if s == [] || !IsDigit(s[0]) then 0
    else
      var n := 1 + DigitPrefix(s[1..]);
      assert s[..n] == [s[0]] + s[1..][..n - 1];
      n
  }

  lemma {:induction false} DigitPrefixOfDigits(d: string)
    requires AllDigits(d)
    ensures DigitPrefix(d) == |d|
  {
    if d != [] {
      DigitPrefixOfDigits(d[1..]);
    }
  }

  /** The characters `parseInt` skips in front of the number: the ECMAScript
      WhiteSpace characters (tab, vertical tab, form feed, space, no-break space,
      the byte order mark and the Zs space separators) and the line terminators. */
  predicate IsSpace(ch: char) {
    || ch == '\t' || ch == '\U{000B}' || ch == '\U{000C}' || ch == ' ' || ch == '\U{00A0}' || ch == '\U{FEFF}'
    || ch == '\U{1680}' || ('\U{2000}' <= ch <= '\U{200A}') || ch == '\U{202F}' || ch == '\U{205F}' || ch == '\U{3000}'
    || ch == '\n' || ch == '\r' || ch == '\U{2028}' || ch == '\U{2029}'
  }

  function TrimStart(s: string): (r: string)
    ensures |r| <= |s|
    ensures s != [] && !IsSpace(s[0]) ==> r == s
  {
    if s != [] && IsSpace(s[0]) then TrimStart(s[1..]) else s
  }

  /** The value of the leading run of digits, or None when there is none. */
  function ReadDigits(u: string): Option<nat> {
    var n := DigitPrefix(u);
    if n == 0 then None else Some(DigitsValue(u[..n]))
  }

  /** `parseInt(s, 10)`: leading blanks, an optional sign, then the longest run of
      digits; None (NaN) when there is no digit. */
  function ParseInt(s: string): Option<int> {
    var t := TrimStart(s);
    var negative := t != [] && t[0] == '-';
    var u := if t != [] && (t[0] == '-' || t[0] == '+') then t[1..] else t;
    match ReadDigits(u)
    case None => None
    case Some(magnitude) => if negative then Some(-(magnitude as int)) else Some(magnitude as int)
  }

  /** The run of digits stops at the first character that is not a digit. */
  lemma {:induction false} DigitPrefixStops(d: string, rest: string)
    requires AllDigits(d) && (rest == [] || !IsDigit(rest[0]))
    ensures DigitPrefix(d + rest) == |d|
  {
    if d == [] {
      assert d + rest == rest;
    } else {
      assert (d + rest)[1..] == d[1..] + rest;
      DigitPrefixStops(d[1..], rest);
    }
  }

  /** Digits followed by a non-digit: the run read is exactly those digits. */
  lemma ReadLeadingDigits(d: string, rest: string)
    requires AllDigits(d) && d != [] && (rest == [] || !IsDigit(rest[0]))
    ensures ReadDigits(d + rest) == Some(DigitsValue(d))
  {
    DigitPrefixStops(d, rest);
    assert (d + rest)[..|d|] == d;
  }

  /** With no blank and no sign in front, `parseInt` is the value of the leading digits. */
  lemma ParseIntUnsigned(u: string)
    requires u != [] && IsDigit(u[0]) && ReadDigits(u).Some?
    ensures ParseInt(u) == Some(ReadDigits(u).value as int)
  {
    assert !IsSpace(u[0]);
    assert TrimStart(u) == u;
  }

  /** A minus sign in front negates the value of the digits after it. */
  lemma ParseIntNegative(u: string)
    requires u != [] && IsDigit(u[0]) && ReadDigits(u).Some?
    ensures ParseInt(['-'] + u) == Some(-(ReadDigits(u).value as int))
  {
    var m := ['-'] + u;
    assert m[0] == '-' && !IsSpace(m[0]);
    assert TrimStart(m) == m;
    assert m[1..] == u;
  }

  /** `parseInt` reads the leading digits and ignores what follows them, so
      `parseInt("09")` is 9 and `parseInt("12abc")` is 12. */
  lemma ParseIntLeadingDigits(d: string, rest: string)
    requires d != [] && AllDigits(d) && (rest == [] || !IsDigit(rest[0]))
    ensures ParseInt(d + rest) == Some(DigitsValue(d))
  {
    var u := d + rest;
    ReadLeadingDigits(d, rest);
    assert u[0] == d[0];
    ParseIntUnsigned(u);
  }

  /** Leading whitespace, of any of the kinds JavaScript recognises, is skipped. */
  lemma {:induction false} ParseIntSkipsWhitespace(w: string, u: string)
    requires forall i :: 0 <= i < |w| ==> IsSpace(w[i])
    requires u != [] && !IsSpace(u[0])
    ensures ParseInt(w + u) == ParseInt(u)
  {
    TrimStartSkips(w, u);
  }

  lemma {:induction false} TrimStartSkips(w: string, u: string)
    requires forall i :: 0 <= i < |w| ==> IsSpace(w[i])
    requires u != [] && !IsSpace(u[0])
    ensures TrimStart(w + u) == u
  {
    if w == [] {
      assert w + u == u;
    } else {
      assert (w + u)[0] == w[0];
      assert (w + u)[1..] == w[1..] + u;
      TrimStartSkips(w[1..], u);
    }
  }

  /** An hours part written with a no-break space in front, "\u00A009", reads as 9. */
  lemma ParseIntNoBreakSpaceExample()
    ensures ParseInt("\U{00A0}09") == Some(9)
  {
    assert "\U{00A0}09" == "\U{00A0}" + "09";
    ParseIntSkipsWhitespace("\U{00A0}", "09");
    assert "09" == "09" + [];
    ParseIntLeadingDigits("09", []);
  }

  // ---------------------------------------------------------------------------
  // parseTime (routes/products.js:79-87)

  /** Hours and minutes of a clock reading, with the 12-hour modifier applied. */
  function ClockMinutes(hours: int, minutes: int, modifier: Option<string>): int {
    var h1 := if hours == 12 && modifier == Some("AM") then 0 else hours;
    var h2 := if h1 != 12 && modifier == Some("PM") then h1 + 12 else h1;
    h2 * 60 + minutes
  }

  /** `parseTime("09:00 AM")`: minutes since midnight, or None (NaN) when the hours or
      the minutes do not parse. */
  function ParseTime(timeStr: string): Option<int> {
    var parts := Split(timeStr, ' ');
    var time := parts[0];
    var modifier := if |parts| > 1 then Some(parts[1]) else None;
    var hm := Split(time, ':');
    var hours := ParseInt(hm[0]);
    var minutes := if |hm| > 1 then ParseInt(hm[1]) else None;
    if hours.Some? && minutes.Some? then Some(ClockMinutes(hours.value, minutes.value, modifier)) else None
  }

  /** A reading written as digits, a colon, digits, a space and a modifier parses to
      those hours and minutes under that modifier. */
  lemma ParseTimeOfReading(s: string, hh: string, mm: string, modifier: string)
    requires hh != [] && mm != [] && AllDigits(hh) && AllDigits(mm) && ' ' !in modifier
    requires s == hh + ":" + mm + " " + modifier
    ensures ParseTime(s) == Some(ClockMinutes(DigitsValue(hh), DigitsValue(mm), Some(modifier)))
  {
    var time := hh + [':'] + mm;
    assert ' ' !in time by {
      forall i | 0 <= i < |time| ensures time[i] != ' ' {
        if i < |hh| { assert time[i] == hh[i]; }
        else if i > |hh| { assert time[i] == mm[i - |hh| - 1]; }
      }
    }
    assert ':' !in hh by {
      forall i | 0 <= i < |hh| ensures hh[i] != ':' { assert IsDigit(hh[i]); }
    }
    assert ':' !in mm by {
      forall i | 0 <= i < |mm| ensures mm[i] != ':' { assert IsDigit(mm[i]); }
    }
    assert s == time + [' '] + modifier;
    SplitAt(time, ' ', modifier);
    SplitWhole(modifier, ' ');
    SplitAt(hh, ':', mm);
    SplitWhole(mm, ':');
    ParseIntLeadingDigits(hh, []);
    ParseIntLeadingDigits(mm, []);
    assert hh + [] == hh && mm + [] == mm;
  }

  /** On a well-formed 12-hour reading (hours 1 to 12, minutes 0 to 59, 'AM' or 'PM')
      the conversion is a minute of the day, AM readings fall before noon and PM
      readings from noon on, and two different readings never give the same minute. */
  lemma TwelveHourClock(h: int, m: int, md: string, h': int, m': int, md': string)
    requires 1 <= h <= 12 && 0 <= m < 60 && (md == "AM" || md == "PM")
    requires 1 <= h' <= 12 && 0 <= m' < 60 && (md' == "AM" || md' == "PM")
    ensures 0 <= ClockMinutes(h, m, Some(md)) < 24 * 60
    ensures md == "AM" <==> ClockMinutes(h, m, Some(md)) < 12 * 60
    ensures ClockMinutes(h, m, Some(md)) == ClockMinutes(h', m', Some(md')) ==> h == h' && m == m' && md == md'
  {
  }

  lemma DigitsValueTwo(d: string)
    requires |d| == 2 && AllDigits(d)
    ensures DigitsValue(d) == 10 * (d[0] as int - '0' as int) + (d[1] as int - '0' as int)
  {
    var first := d[..1];
    assert d[..|d| - 1] == first;
    assert first[..|first| - 1] == [];
    assert DigitsValue(first) == first[0] as int - '0' as int;
  }

  /** Readings as the store-hours screen writes them parse to the minutes they name. */
  lemma ParseTimeOpeningExample(s: string)
    requires s == "09:00 AM"
    ensures ParseTime(s) == Some(540)
  {
    DigitsValueTwo("09");
    DigitsValueTwo("00");
    ParseTimeOfReading(s, "09", "00", "AM");
  }

  lemma ParseTimeClosingExample(s: string)
    requires s == "10:00 PM"
    ensures ParseTime(s) == Some(1320)
  {
    DigitsValueTwo("10");
    DigitsValueTwo("00");
    ParseTimeOfReading(s, "10", "00", "PM");
  }

  lemma ParseTimeMidnightExample(s: string)
    requires s == "12:30 AM"
    ensures ParseTime(s) == Some(30)
  {
    DigitsValueTwo("12");
    DigitsValueTwo("30");
    ParseTimeOfReading(s, "12", "30", "AM");
  }

  // ---------------------------------------------------------------------------
  // The open-store filter of the listing (routes/products.js:91-114)

  /** One day's entry of `storeTimings`: a bare string (such as 'Closed') or an object
      whose `start` and `end` are strings, or None where they are not strings. */
  datatype DayTiming = Text(text: string) | Window(start: Option<string>, end: Option<string>)

  datatype Vendor = Vendor(id: string, name: string, storeTimings: Option<map<string, DayTiming>>)

  datatype Product = Product(id: string, name: string, price: Money, category: Option<string>, vendorId: string)

  /** A product of the listing joined with its vendor. */
  datatype Joined = Joined(product: Product, vendor: Vendor)

  /** A product as the listing returns it: the vendor object replaced by its name and id. */
  datatype Listed = Listed(product: Product, vendorName: string, vendorId: string)

  predicate TimingTruthy(t: Option<DayTiming>) {
    t.Some? && (t.value.Window? || t.value.text != "")
  }

  /** `timings[dayPart] || timings[currentDay]`. */
  function TodayTiming(timings: map<string, DayTiming>, dayPart: string, currentDay: string): Option<DayTiming> {
    if TimingTruthy(Get(timings, dayPart)) then Get(timings, dayPart) else Get(timings, currentDay)
  }

  /** Whether the listing keeps a product of this vendor. */
  predicate IsShopOpen(v: Vendor, dayPart: string, currentDay: string, currentMinutes: int) {
    match v.storeTimings
    case None => true
    case Some(timings) =>
      var today := TodayTiming(timings, dayPart, currentDay);
      if !TimingTruthy(today) then true
      else match today.value
        // a string has no `start`, so parseTime throws and the error branch keeps it
        case Text(s) => s != "Closed"
        // a start or end that is not a string makes parseTime throw
        case Window(start, end) =>
          if start.None? || end.None? then true
          else
            var startMins, endMins := ParseTime(start.value), ParseTime(end.value);
            startMins.Some? && endMins.Some? && startMins.value <= currentMinutes <= endMins.value
  }

  /** The store-hours rules, one by one: no timings or no entry for today keeps the
      product, 'Closed' removes it, and a window keeps it exactly when the current
      minute lies between its start and end, both inclusive, on the same day. */
  lemma IsShopOpenRules(v: Vendor, dayPart: string, currentDay: string, currentMinutes: int)
    ensures v.storeTimings.None? ==> IsShopOpen(v, dayPart, currentDay, currentMinutes)
    ensures v.storeTimings.Some? && dayPart !in v.storeTimings.value && currentDay !in v.storeTimings.value ==>
      IsShopOpen(v, dayPart, currentDay, currentMinutes)
    ensures v.storeTimings.Some? && Get(v.storeTimings.value, dayPart) == Some(Text("Closed")) ==>
      !IsShopOpen(v, dayPart, currentDay, currentMinutes)
    ensures forall s, e, a, b ::
      v.storeTimings.Some? && Get(v.storeTimings.value, dayPart) == Some(Window(Some(s), Some(e))) &&
      ParseTime(s) == Some(a) && ParseTime(e) == Some(b) ==>
      (IsShopOpen(v, dayPart, currentDay, currentMinutes) <==> a <= currentMinutes <= b)
  {
  }

  /** A window that ends before it starts, such as 10 PM to 2 AM, keeps no product at
      any minute of the day. */
  lemma OvernightWindowNeverOpen(v: Vendor, dayPart: string, currentDay: string, currentMinutes: int, s: string, e: string)
    requires v.storeTimings.Some? && Get(v.storeTimings.value, dayPart) == Some(Window(Some(s), Some(e)))
    requires ParseTime(s).Some? && ParseTime(e).Some? && ParseTime(e).value < ParseTime(s).value
    ensures !IsShopOpen(v, dayPart, currentDay, currentMinutes)
  {
  }

  function ToListed(j: Joined): Listed {
    Listed(j.product, j.vendor.name, j.vendor.id)
  }

  /** The listing of `GET /`: the products whose store is open now, each with its
      vendor replaced by the vendor's name and id. */
  function ListOpenProducts(all: seq<Joined>, dayPart: string, currentDay: string, currentMinutes: int): seq<Listed> {
    Sequences.FilterMap(all, (j: Joined) => IsShopOpen(j.vendor, dayPart, currentDay, currentMinutes), ToListed)
  }

  /** The listing is the open products, each once and in their original order. */
  lemma ListOpenProductsKeepsOrder(all: seq<Joined>, dayPart: string, currentDay: string, currentMinutes: int)
    returns (idx: seq<nat>)
    ensures |idx| == |ListOpenProducts(all, dayPart, currentDay, currentMinutes)|
    ensures forall k :: 0 <= k < |idx| ==>
      idx[k] < |all| && ListOpenProducts(all, dayPart, currentDay, currentMinutes)[k] == ToListed(all[idx[k]])
    ensures forall k, l :: 0 <= k < l < |idx| ==> idx[k] < idx[l]
    ensures forall i :: 0 <= i < |all| ==> (i in idx <==> IsShopOpen(all[i].vendor, dayPart, currentDay, currentMinutes))
  {
    idx := Sequences.FilterMapKeepsOrder(all, (j: Joined) => IsShopOpen(j.vendor, dayPart, currentDay, currentMinutes), ToListed);
  }

  // ---------------------------------------------------------------------------
  // Product creation (routes/products.js:142-188)

  /** `stock` as sent: left out, sent as null, or a count. */
  datatype StockInput = Undefined | Null | Count(n: int)

  datatype NewProductRequest = NewProductRequest(
    name: Option<string>,
    price: Option<real>,
    vendorId: Option<string>,
    category: Option<string>,
    sku: Option<string>,
    stock: StockInput,
    unit: Option<string>,
    image: Option<string>,
    lowStockThreshold: Option<int>)

  /** The categories a vendor registered, as the `users` document holds them. */
  datatype VendorCategories = VendorCategories(shopCategories: Option<seq<string>>, shopCategory: Option<string>)

  datatype ProductRecord = ProductRecord(
    name: string,
    price: Money,
    vendorId: string,
    category: Option<string>,
    sku: string,
    stock: Option<int>,
    unit: string,
    image: string,
    lowStockThreshold: int,
    approvalStatus: string,
    availability: string)

  /** `vendor.shopCategories || (vendor.shopCategory ? [vendor.shopCategory] : [])`;
      an empty array is truthy, so it is kept and allows every category. */
  function AllowedCategories(v: VendorCategories): seq<string> {
    match v.shopCategories
    case Some(cats) => cats
    case None => if Filled(v.shopCategory) then [v.shopCategory.value] else []
  }

  predicate CategoryAccepted(vendor: Option<VendorCategories>, category: Option<string>) {
    vendor.None? || AllowedCategories(vendor.value) == [] ||
    (category.Some? && category.value in AllowedCategories(vendor.value))
  }

  /** `POST /`: validates the request and fills in the defaults. `vendors` maps a
      vendor's ObjectId to its categories, and `skuStamp` is the text of `Date.now()`. */
  method CreateProduct(req: NewProductRequest, vendors: map<string, VendorCategories>, skuStamp: string)
    returns (r: Result<ProductRecord>)
    ensures r == Err(BadRequest("required fields")) <==>
      !(Filled(req.name) && Truthy(req.price) && Filled(req.vendorId))
    ensures r.Ok? <==>
      && Filled(req.name) && Truthy(req.price) && Filled(req.vendorId)
      && IsObjectIdString(req.vendorId.value)
      && CategoryAccepted(Get(vendors, ObjectIdOf(req.vendorId.value).value), req.category)
    // every refusal is a 400: missing fields, a vendorId the ObjectId constructor rejects,
    // and a category outside the vendor's registered ones
    ensures r.Err? ==> r.error.BadRequest?
    ensures Filled(req.name) && Truthy(req.price) && Filled(req.vendorId) && !IsObjectIdString(req.vendorId.value) ==>
      r == Err(BadRequest("invalid id"))
    ensures (Filled(req.name) && Truthy(req.price) && Filled(req.vendorId) && IsObjectIdString(req.vendorId.value) &&
             !CategoryAccepted(Get(vendors, ObjectIdOf(req.vendorId.value).value), req.category)) ==>
      r == Err(BadRequest("category not registered"))
    ensures r.Ok? ==>
      var p := r.value;
      && p.name == req.name.value && p.price == req.price.value && p.category == req.category
      && p.vendorId == ObjectIdOf(req.vendorId.value).value
      && p.stock == (match req.stock case Undefined => Some(0) case Null => None case Count(n) => Some(n))
      && p.unit == OrElse(req.unit, "pcs")
      && p.image == OrElse(req.image, "")
      && p.sku == OrElse(req.sku, "SKU-" + skuStamp)
      && p.lowStockThreshold == (if req.lowStockThreshold.Some? && req.lowStockThreshold.value != 0
                                 then req.lowStockThreshold.value else 10)
      && p.approvalStatus == "pending"
      && (p.availability == "in-stock" <==> p.stock.Some? && p.stock.value > 0)
      && (p.availability == "in-stock" || p.availability == "out-of-stock")
  {
    if !Filled(req.name) || !Truthy(req.price) || !Filled(req.vendorId) {
      return Err(BadRequest("required fields"));
    }
    var vendorId := ObjectIdOf(req.vendorId.value);
    if vendorId.None? {
      // the ObjectId constructor throws and the handler answers 400 with its message
      return Err(BadRequest("invalid id"));
    }
    var vendor := Get(vendors, vendorId.value);
    if vendor.Some? {
      var allowed := AllowedCategories(vendor.value);
      if |allowed| > 0 && !(req.category.Some? && req.category.value in allowed) {
        return Err(BadRequest("category not registered"));
      }
    }
    var sku := OrElse(req.sku, "SKU-" + skuStamp);
    var stock: Option<int>;
    match req.stock {
      case Undefined => stock := Some(0);
      case Null => stock := None;
      case Count(n) => stock := Some(n);
    }
    var unit := OrElse(req.unit, "pcs");
    var image := OrElse(req.image, "");
    var threshold := if req.lowStockThreshold.Some? && req.lowStockThreshold.value != 0
                     then req.lowStockThreshold.value else 10;
    var availability := if stock.Some? && stock.value != 0 && stock.value > 0 then "in-stock" else "out-of-stock";
    r := Ok(ProductRecord(req.name.value, req.price.value, vendorId.value, req.category, sku, stock,
                          unit, image, threshold, "pending", availability));
  }

  // ---------------------------------------------------------------------------
  // Approval update (routes/products.js:215-243)

  predicate IsApprovalStatus(s: Option<string>) {
    s == Some("pending") || s == Some("approved") || s == Some("rejected")
  }

  /** `PATCH /:id/approval` on the products collection, keyed by ObjectId. */
  function SetApproval(products: map<string, ProductRecord>, id: string, approvalStatus: Option<string>)
    : (r: Result<map<string, ProductRecord>>)
    ensures !IsApprovalStatus(approvalStatus) ==> r == Err(BadRequest("invalid approval status"))
    ensures r.Ok? <==> IsApprovalStatus(approvalStatus) && IsObjectIdString(id) && ObjectIdOf(id).value in products
    ensures r.Ok? ==> var key := ObjectIdOf(id).value;
      && r.value.Keys == products.Keys
      && r.value[key] == products[key].(approvalStatus := approvalStatus.value)
      && (forall k :: k in products && k != key ==> r.value[k] == products[k])
    ensures IsApprovalStatus(approvalStatus) && IsObjectIdString(id) && ObjectIdOf(id).value !in products ==>
      r == Err(NotFound)
  {
    if !IsApprovalStatus(approvalStatus) then Err(BadRequest("invalid approval status"))
    else match ObjectIdOf(id)
      case None => Err(BadRequest("invalid id"))
      case Some(key) =>
        if key !in products then Err(NotFound)
        else Ok(products[key := products[key].(approvalStatus := approvalStatus.value)])
  }
}
