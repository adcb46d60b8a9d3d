/** Orders of routes/orders.js: a cart becomes one order per vendor when it is checked
    out, and completing an order credits the vendor's wallet with the order total less
    a 10% platform commission. Notifications and push messages are not modelled. */
module Orders {
  import opened Common
  import Sequences
  import Cart

  /** The fields of a product document an order reads; `vendorId` is the vendor's
      ObjectId as `toString` prints it. */
  datatype OrderProduct = OrderProduct(name: string, price: real, image: string, unit: string, vendorId: string)

  datatype LineItem = LineItem(productId: string, name: string, price: real, quantity: int,
                               image: string, unit: string, vendorId: string)

  datatype Coordinates = Coordinates(latitude: real, longitude: real)

  datatype OrderDoc = OrderDoc(
    vendorId: string,
    userId: string,
    items: seq<LineItem>,
    totalAmount: real,
    status: string,
    paymentMethod: string,
    address: string,
    location: Option<Coordinates>,
    platformCommission: Option<real>,
    netVendorEarnings: Option<real>)

  /** A wallet credit written when an order is completed. */
  datatype Credit = Credit(userId: string, amount: real, commission: real, orderId: string)

  // ---------------------------------------------------------------------------
  // Specification of the checkout split

  function MakeLine(item: Cart.CartItem, p: OrderProduct): LineItem {
    LineItem(item.productId, p.name, p.price, item.quantity, p.image, p.unit, p.vendorId)
  }

  /** The cart's items joined with their products, in cart order; an item whose
      product was deleted is skipped, and an item id that is not an ObjectId makes
      the lookup throw, which answers 500. */
  function Lines(items: seq<Cart.CartItem>, products: map<string, OrderProduct>): Result<seq<LineItem>> {
    if items == [] then Ok([])
    else
      var last := items[|items| - 1];
      match Lines(items[..|items| - 1], products)
      case Err(e) => Err(e)
      case Ok(ls) =>
        match ObjectIdOf(last.productId)
        case None => Err(ServerError)
        case Some(key) => if key in products then Ok(ls + [MakeLine(last, products[key])]) else Ok(ls)
  }

  function Amount(l: LineItem): real {
    l.price * (l.quantity as real)
  }

  function Total(ls: seq<LineItem>): real {
    if ls == [] then 0.0 else Total(ls[..|ls| - 1]) + Amount(ls[|ls| - 1])
  }

  /** The vendors of the lines, each once, in the order they first appear; this is
      the key order of the `vendorOrders` object. */
  function VendorsOf(ls: seq<LineItem>): seq<string> {
    if ls == [] then []
    else
      var vs := VendorsOf(ls[..|ls| - 1]);
      var v := ls[|ls| - 1].vendorId;
      if v in vs then vs else vs + [v]
  }

  /** The lines of one vendor, in cart order. */
  function LinesOf(ls: seq<LineItem>, v: string): seq<LineItem> {
    Sequences.FilterMap(ls, (l: LineItem) => l.vendorId == v, (l: LineItem) => l)
  }

  /** An entry of the `vendorOrders` object: the vendor's lines and their running total. */
  datatype Group = Group(items: seq<LineItem>, totalAmount: real)

  /** The entry for vendor `v` once all of `ls` has been grouped. */
  function GroupOf(ls: seq<LineItem>, v: string): Group {
    Group(LinesOf(ls, v), Total(LinesOf(ls, v)))
  }

  /** The `vendorOrders` object after the lines `ls`, keyed by vendor. */
  function Groups(ls: seq<LineItem>): map<string, Group> {
    map v | v in VendorsOf(ls) :: GroupOf(ls, v)
  }

  function AppendLine(g: Group, l: LineItem): Group {
    Group(g.items + [l], g.totalAmount + Amount(l))
  }

  /** The order document for a vendor's entry; the other fields are the same for
      every order of a checkout. */
  function ToOrder(v: string, g: Group, userId: string, paymentMethod: Option<string>,
                   address: string, location: Option<Coordinates>): OrderDoc {
    OrderDoc(v, userId, g.items, g.totalAmount, "pending", OrElse(paymentMethod, "COD"), address, location, None, None)
  }

  /** The orders of a checkout, in the order their vendors first appear. */
  function Drafts(ls: seq<LineItem>, userId: string, paymentMethod: Option<string>,
                  address: string, location: Option<Coordinates>): seq<OrderDoc> {
    var vs := VendorsOf(ls);
    seq(|vs|, k requires 0 <= k < |vs| => ToOrder(vs[k], GroupOf(ls, vs[k]), userId, paymentMethod, address, location))
  }

  // ---------------------------------------------------------------------------
  // Lemmas about the split

  lemma {:induction false} LinesErrPersists(a: seq<Cart.CartItem>, b: seq<Cart.CartItem>, products: map<string, OrderProduct>)
    requires Lines(a, products).Err?
    ensures Lines(a + b, products) == Err(ServerError)
  {
    if b == [] {
      assert a + b == a;
      LinesErrIsServerError(a, products);
    } else {
      assert (a + b)[..|a + b| - 1] == a + b[..|b| - 1];
      LinesErrPersists(a, b[..|b| - 1], products);
    }
  }

  lemma {:induction false} LinesErrIsServerError(a: seq<Cart.CartItem>, products: map<string, OrderProduct>)
    ensures Lines(a, products).Err? ==> Lines(a, products) == Err(ServerError)
  {
    if a != [] {
      LinesErrIsServerError(a[..|a| - 1], products);
    }
  }

  /** The checkout fails with 500 exactly when some item's product id is not an ObjectId. */
  lemma {:induction false} LinesErrIffInvalidId(items: seq<Cart.CartItem>, products: map<string, OrderProduct>)
    ensures Lines(items, products).Err? <==> exists j :: 0 <= j < |items| && !IsObjectIdString(items[j].productId)
  {
    if items != [] {
      var init := items[..|items| - 1];
      LinesErrIffInvalidId(init, products);
      if exists j :: 0 <= j < |init| && !IsObjectIdString(init[j].productId) {
        var j :| 0 <= j < |init| && !IsObjectIdString(init[j].productId);
        assert items[j] == init[j];
      }
      if exists j :: 0 <= j < |items| && !IsObjectIdString(items[j].productId) {
        var j :| 0 <= j < |items| && !IsObjectIdString(items[j].productId);
        if j < |init| { assert init[j] == items[j]; }
      }
    }
  }

  lemma TotalSnoc(ls: seq<LineItem>, l: LineItem)
    ensures Total(ls + [l]) == Total(ls) + Amount(l)
  {
    assert (ls + [l])[..|ls|] == ls;
  }

  lemma LinesOfSnoc(ls: seq<LineItem>, l: LineItem, v: string)
    ensures LinesOf(ls + [l], v) == LinesOf(ls, v) + (if l.vendorId == v then [l] else [])
  {
    Sequences.FilterMapConcat(ls, [l], (x: LineItem) => x.vendorId == v, (x: LineItem) => x);
    assert [l][1..] == [];
  }

  lemma {:induction false} VendorsOfMembers(ls: seq<LineItem>)
    ensures forall v :: v in VendorsOf(ls) <==> exists j :: 0 <= j < |ls| && ls[j].vendorId == v
    ensures forall j, k :: 0 <= j < k < |VendorsOf(ls)| ==> VendorsOf(ls)[j] != VendorsOf(ls)[k]
  {
    if ls != [] {
      var init := ls[..|ls| - 1];
      VendorsOfMembers(init);
      forall v ensures v in VendorsOf(ls) <==> exists j :: 0 <= j < |ls| && ls[j].vendorId == v {
        if exists j :: 0 <= j < |init| && init[j].vendorId == v {
          var j :| 0 <= j < |init| && init[j].vendorId == v;
          assert ls[j] == init[j];
        }
        if exists j :: 0 <= j < |ls| && ls[j].vendorId == v {
          var j :| 0 <= j < |ls| && ls[j].vendorId == v;
          if j < |init| { assert init[j] == ls[j]; }
        }
      }
    }
  }

  lemma {:induction false} LinesOfAbsent(ls: seq<LineItem>, v: string)
    requires forall j :: 0 <= j < |ls| ==> ls[j].vendorId != v
    ensures LinesOf(ls, v) == []
  {
    if ls != [] {
      LinesOfAbsent(ls[1..], v);
    }
  }

  function SumOfTotals(ls: seq<LineItem>, vs: seq<string>): real {
    if vs == [] then 0.0 else SumOfTotals(ls, vs[..|vs| - 1]) + Total(LinesOf(ls, vs[|vs| - 1]))
  }

  lemma {:induction false} SumOfTotalsSnoc(ls: seq<LineItem>, l: LineItem, vs: seq<string>)
    requires forall j, k :: 0 <= j < k < |vs| ==> vs[j] != vs[k]
    ensures SumOfTotals(ls + [l], vs) == SumOfTotals(ls, vs) + (if l.vendorId in vs then Amount(l) else 0.0)
  {
    if vs != [] {
      var ws, w := vs[..|vs| - 1], vs[|vs| - 1];
      SumOfTotalsSnoc(ls, l, ws);
      LinesOfSnoc(ls, l, w);
      if l.vendorId == w {
        TotalSnoc(LinesOf(ls, w), l);
        assert l.vendorId !in ws;
      } else {
        assert LinesOf(ls, w) + [] == LinesOf(ls, w);
      }
      assert l.vendorId in vs <==> l.vendorId in ws || l.vendorId == w;
    }
  }

  lemma VendorsOfSnoc(ls: seq<LineItem>, l: LineItem)
    ensures VendorsOf(ls + [l]) == if l.vendorId in VendorsOf(ls) then VendorsOf(ls) else VendorsOf(ls) + [l.vendorId]
  {
    assert (ls + [l])[..|ls|] == ls;
  }

  /** A line of a vendor not seen before adds that vendor's one-line total. */
  lemma NewVendorStep(ls: seq<LineItem>, l: LineItem)
    requires l.vendorId !in VendorsOf(ls)
    ensures SumOfTotals(ls + [l], VendorsOf(ls + [l])) == SumOfTotals(ls + [l], VendorsOf(ls)) + Amount(l)
  {
    var vs, v := VendorsOf(ls), l.vendorId;
    VendorsOfSnoc(ls, l);
    GroupOfSnocSame(ls, l);
    assert (vs + [v])[..|vs|] == vs;
  }

  /** The orders of a checkout partition its lines: the vendor totals add up to the
      total of all the lines. */
  lemma {:induction false} VendorTotalsAddUp(ls: seq<LineItem>)
    ensures SumOfTotals(ls, VendorsOf(ls)) == Total(ls)
  {
    if ls != [] {
      var init, l := ls[..|ls| - 1], ls[|ls| - 1];
      assert ls == init + [l];
      VendorTotalsAddUp(init);
      VendorsOfMembers(init);
      SumOfTotalsSnoc(init, l, VendorsOf(init));
      TotalSnoc(init, l);
      VendorsOfSnoc(init, l);
      if l.vendorId !in VendorsOf(init) {
        NewVendorStep(init, l);
      }
    }
  }

  lemma GroupOfSnocSame(ls: seq<LineItem>, l: LineItem)
    ensures GroupOf(ls + [l], l.vendorId) ==
      AppendLine(if l.vendorId in VendorsOf(ls) then GroupOf(ls, l.vendorId) else Group([], 0.0), l)
  {
    var v := l.vendorId;
    LinesOfSnoc(ls, l, v);
    TotalSnoc(LinesOf(ls, v), l);
    if v !in VendorsOf(ls) {
      VendorsOfMembers(ls);
      LinesOfAbsent(ls, v);
    }
  }

  lemma GroupOfSnocOther(ls: seq<LineItem>, l: LineItem, u: string)
    requires u != l.vendorId
    ensures GroupOf(ls + [l], u) == GroupOf(ls, u)
  {
    LinesOfSnoc(ls, l, u);
    assert LinesOf(ls + [l], u) == LinesOf(ls, u) + [];
  }

  lemma GroupsSnocKeys(ls: seq<LineItem>, l: LineItem)
    ensures Groups(ls + [l]).Keys == Groups(ls).Keys + {l.vendorId}
  {
    VendorsOfSnoc(ls, l);
  }

  /** The entry of one vendor after one more line. */
  lemma GroupOfSnoc(ls: seq<LineItem>, l: LineItem, u: string)
    ensures GroupOf(ls + [l], u) ==
      if u != l.vendorId then GroupOf(ls, u)
      else AppendLine(if u in VendorsOf(ls) then GroupOf(ls, u) else Group([], 0.0), l)
  {
    if u != l.vendorId {
      GroupOfSnocOther(ls, l, u);
    } else {
      GroupOfSnocSame(ls, l);
    }
  }

  /** One turn of the grouping loop: the line goes to the end of its vendor's entry,
      which is started empty the first time the vendor is seen. */
  lemma GroupsSnoc(ls: seq<LineItem>, l: LineItem)
    ensures Groups(ls + [l]) ==
      Groups(ls)[l.vendorId := AppendLine(if l.vendorId in Groups(ls) then Groups(ls)[l.vendorId] else Group([], 0.0), l)]
  {
    var g, g' := Groups(ls), Groups(ls + [l]);
    var v := l.vendorId;
    var h := g[v := AppendLine(if v in g then g[v] else Group([], 0.0), l)];
    GroupsSnocKeys(ls, l);
    forall u | u in g' ensures g'[u] == h[u] {
      GroupOfSnoc(ls, l, u);
    }
    assert g' == h;
  }

  /** Checkout creates one order per distinct vendor. */
  lemma DraftsHaveDistinctVendors(ls: seq<LineItem>, userId: string, paymentMethod: Option<string>,
                                  address: string, location: Option<Coordinates>)
    ensures forall j, k :: 0 <= j < k < |Drafts(ls, userId, paymentMethod, address, location)| ==>
      Drafts(ls, userId, paymentMethod, address, location)[j].vendorId != Drafts(ls, userId, paymentMethod, address, location)[k].vendorId
  {
    VendorsOfMembers(ls);
  }

  /** Every line lands in the order of its product's vendor. */
  lemma DraftsCoverLines(ls: seq<LineItem>, userId: string, paymentMethod: Option<string>,
                         address: string, location: Option<Coordinates>, j: nat) returns (k: nat)
    requires j < |ls|
    ensures k < |Drafts(ls, userId, paymentMethod, address, location)|
    ensures Drafts(ls, userId, paymentMethod, address, location)[k].vendorId == ls[j].vendorId
    ensures ls[j] in Drafts(ls, userId, paymentMethod, address, location)[k].items
  {
    var vs := VendorsOf(ls);
    var v := ls[j].vendorId;
    VendorsOfMembers(ls);
    assert v in vs;
    k :| 0 <= k < |vs| && vs[k] == v;
    var idx := Sequences.FilterMapKeepsOrder(ls, (l: LineItem) => l.vendorId == v, (l: LineItem) => l);
    assert j in idx;
    var m :| 0 <= m < |idx| && idx[m] == j;
    assert LinesOf(ls, v)[m] == ls[j];
  }

  /** Each order holds only lines of its own vendor, starts 'pending' with the payment
      method defaulting to 'COD', and is worth the sum of its lines. */
  lemma DraftIsVendorShare(ls: seq<LineItem>, userId: string, paymentMethod: Option<string>,
                           address: string, location: Option<Coordinates>, k: nat)
    requires k < |Drafts(ls, userId, paymentMethod, address, location)|
    ensures Drafts(ls, userId, paymentMethod, address, location)[k].status == "pending"
    ensures Drafts(ls, userId, paymentMethod, address, location)[k].paymentMethod == OrElse(paymentMethod, "COD")
    ensures Drafts(ls, userId, paymentMethod, address, location)[k].totalAmount ==
      Total(Drafts(ls, userId, paymentMethod, address, location)[k].items)
    ensures forall l :: l in Drafts(ls, userId, paymentMethod, address, location)[k].items ==>
      l in ls && l.vendorId == Drafts(ls, userId, paymentMethod, address, location)[k].vendorId
  {
    var v := VendorsOf(ls)[k];
    var items := LinesOf(ls, v);
    var idx := Sequences.FilterMapKeepsOrder(ls, (l: LineItem) => l.vendorId == v, (l: LineItem) => l);
    forall l | l in items ensures l in ls && l.vendorId == v {
      var m :| 0 <= m < |items| && items[m] == l;
      assert idx[m] in idx;
    }
  }

  /** One turn of the `vendorOrders` loop: start the vendor's entry if it has none,
      then push the line and add its amount to the entry's total. */
  method PushLine(groups: map<string, Group>, keys: seq<string>, line: LineItem)
    returns (groups': map<string, Group>, keys': seq<string>)
    ensures groups' == groups[line.vendorId := AppendLine(if line.vendorId in groups then groups[line.vendorId] else Group([], 0.0), line)]
    ensures keys' == if line.vendorId in groups then keys else keys + [line.vendorId]
  {
    var v := line.vendorId;
    var entry;
    if v in groups {
      entry, keys' := groups[v], keys;
    } else {
      entry, keys' := Group([], 0.0), keys + [v];
    }
    assert entry == if v in groups then groups[v] else Group([], 0.0);
    assert AppendLine(entry, line) == Group(entry.items + [line], entry.totalAmount + line.price * (line.quantity as real));
    groups' := groups[v := Group(entry.items + [line], entry.totalAmount + line.price * (line.quantity as real))];
  }

  /** A line joins the grouping: the vendor list and the groups stay those of the lines. */
  method AppendGrouped(lines: seq<LineItem>, keys: seq<string>, groups: map<string, Group>, line: LineItem)
    returns (lines': seq<LineItem>, keys': seq<string>, groups': map<string, Group>)
    requires keys == VendorsOf(lines) && groups == Groups(lines)
    ensures lines' == lines + [line] && keys' == VendorsOf(lines') && groups' == Groups(lines')
  {
    VendorsOfMembers(lines);
    groups', keys' := PushLine(groups, keys, line);
    GroupsSnoc(lines, line);
    assert (lines + [line])[..|lines|] == lines;
    lines' := lines + [line];
  }

  /** The `vendorOrders` loop of `POST /`: groups the cart's lines by vendor, keeping
      each group's running total, and lists the groups in the order their vendors
      first appear. */
  method SplitByVendor(items: seq<Cart.CartItem>, products: map<string, OrderProduct>, userId: string,
                       paymentMethod: Option<string>, address: string, location: Option<Coordinates>)
    returns (r: Result<seq<OrderDoc>>)
    ensures Lines(items, products).Err? ==> r == Err(ServerError)
    ensures Lines(items, products) == Ok([]) ==> r == Err(BadRequest("no valid products"))
    ensures Lines(items, products).Ok? && Lines(items, products).value != [] ==>
      r == Ok(Drafts(Lines(items, products).value, userId, paymentMethod, address, location))
  {
    var lines: seq<LineItem> := [];
    var keys: seq<string> := [];
    var groups: map<string, Group> := map[];
    for i := 0 to |items|
      invariant Lines(items[..i], products) == Ok(lines)
      invariant keys == VendorsOf(lines)
      invariant groups == Groups(lines)
    {
      assert items[..i + 1][..i] == items[..i];
      var key := ObjectIdOf(items[i].productId);
      if key.None? {
        assert Lines(items[..i + 1], products).Err?;
        LinesErrPersists(items[..i + 1], items[i + 1..], products);
        assert items[..i + 1] + items[i + 1..] == items;
        return Err(ServerError);
      }
      if key.value in products {
        var line := MakeLine(items[i], products[key.value]);
        lines, keys, groups := AppendGrouped(lines, keys, groups, line);
      }
    }
    assert items[..|items|] == items;
    if lines == [] {
      return Err(BadRequest("no valid products"));
    }
    var created := seq(|keys|, k requires 0 <= k < |keys| =>
      ToOrder(keys[k], groups[keys[k]], userId, paymentMethod, address, location));
    assert created == Drafts(lines, userId, paymentMethod, address, location);
    r := Ok(created);
  }

  // ---------------------------------------------------------------------------
  // The store the order routes work on

  /** Driver-generated ObjectIds for inserted documents: distinct and unused. */
  predicate FreshIds(ids: seq<string>, used: set<string>) {
    (forall j, k :: 0 <= j < k < |ids| ==> ids[j] != ids[k]) && (forall j :: 0 <= j < |ids| ==> ids[j] !in used)
  }

  /** The orders inserted by a checkout, keyed by their new ids. */
  function Inserted(ids: seq<string>, created: seq<OrderDoc>, n: nat): map<string, OrderDoc> {
    if n == 0 || n > |created| || n > |ids| then map[] else Inserted(ids, created, n - 1)[ids[n - 1] := created[n - 1]]
  }

  /** Ten percent of the order total goes to the platform. */
  function Commission(total: real): (c: real)
    ensures total >= 0.0 ==> 0.0 <= c <= total
  {
    total * 0.10
  }

  /** The vendor's share of a completed order: what the commission leaves of the total. */
  function NetAmount(total: real): (n: real)
    ensures n + Commission(total) == total
    ensures n == total * 0.90
  {
    total - Commission(total)
  }

  function WalletOrZero(w: Option<real>): real {
    if w.Some? then w.value else 0.0
  }

  class OrderStore {
    var carts: map<string, seq<Cart.CartItem>>
    var orders: map<string, OrderDoc>
    /** The `walletBalance` field of each user document (None where it is missing). */
    var walletBalances: map<string, Option<real>>
    var credits: seq<Credit>

    constructor()
      ensures carts == map[] && orders == map[] && walletBalances == map[] && credits == []
    {
      carts, orders, walletBalances, credits := map[], map[], map[], [];
    }

    /** `POST /`: checks the request and the cart, splits the cart into one order per
        vendor, inserts the orders under the ids the driver hands out, and empties the
        cart. Every failure leaves the store as it was. */
    method PlaceOrder(userId: Option<string>, address: Option<string>, paymentMethod: Option<string>,
                      location: Option<Coordinates>, products: map<string, OrderProduct>, ids: seq<string>)
      returns (r: Result<seq<OrderDoc>>)
      requires Filled(userId) ==> |ids| >= |Cart.ItemsOf(carts, userId.value)|
      requires FreshIds(ids, orders.Keys)
      modifies this
      ensures !Filled(userId) || !Filled(address) ==> r == Err(BadRequest("user id and address required"))
      ensures Filled(userId) && Filled(address) && Cart.ItemsOf(old(carts), userId.value) == [] ==>
        r == Err(BadRequest("cart is empty"))
      ensures r.Err? ==> carts == old(carts) && orders == old(orders)
      ensures r.Ok? ==> (Filled(userId) && Filled(address) && Cart.ItemsOf(old(carts), userId.value) != [] &&
        var ls := Lines(Cart.ItemsOf(old(carts), userId.value), products);
        && ls.Ok? && ls.value != []
        && r.value == Drafts(ls.value, userId.value, paymentMethod, address.value, location)
        && orders == old(orders) + Inserted(ids, r.value, |r.value|)
        && carts == old(carts)[userId.value := []])
      ensures Filled(userId) && Filled(address) && Cart.ItemsOf(old(carts), userId.value) != [] ==>
        (r.Ok? <==> Lines(Cart.ItemsOf(old(carts), userId.value), products).Ok? &&
                    Lines(Cart.ItemsOf(old(carts), userId.value), products).value != [])
      ensures walletBalances == old(walletBalances) && credits == old(credits)
    {
      if !Filled(userId) || !Filled(address) {
        return Err(BadRequest("user id and address required"));
      }
      var items := Cart.ItemsOf(carts, userId.value);
      if items == [] {
        return Err(BadRequest("cart is empty"));
      }
      r := SplitByVendor(items, products, userId.value, paymentMethod, address.value, location);
      if r.Err? {
        return;
      }
      DraftsFewerThanItems(items, products);
      InsertOrders(r.value, ids);
      carts := carts[userId.value := []];
    }

    /** The `insertOne` loop of `POST /`: each created order is stored under the next id. */
    method InsertOrders(created: seq<OrderDoc>, ids: seq<string>)
      requires |created| <= |ids|
      modifies this
      ensures orders == old(orders) + Inserted(ids, created, |created|)
      ensures carts == old(carts) && walletBalances == old(walletBalances) && credits == old(credits)
    {
      for k := 0 to |created|
        invariant orders == old(orders) + Inserted(ids, created, k)
        invariant carts == old(carts) && walletBalances == old(walletBalances) && credits == old(credits)
      {
        orders := orders[ids[k] := created[k]];
      }
    }

    /** `PATCH /:id/status`: sets the status; on 'completed', unless the order is
        'COD_UNPAID', credits the vendor's wallet with the net amount, records the
        credit, and stores the commission split on the order. Nothing prevents a
        second completion from crediting again. */
    method UpdateStatus(id: string, status: Option<string>) returns (err: Option<HttpError>)
      modifies this
      ensures !Filled(status) ==> err == Some(BadRequest("status required"))
      ensures Filled(status) && !IsObjectIdString(id) ==> err == Some(ServerError)
      ensures Filled(status) && IsObjectIdString(id) && ObjectIdOf(id).value !in old(orders) ==> err == Some(NotFound)
      ensures Filled(status) && IsObjectIdString(id) && ObjectIdOf(id).value in old(orders) ==> err.None?
      ensures err.Some? ==> orders == old(orders) && walletBalances == old(walletBalances) && credits == old(credits)
      ensures err.None? ==> (Filled(status) && IsObjectIdString(id) && ObjectIdOf(id).value in old(orders) &&
        var key := ObjectIdOf(id).value;
        var o := old(orders)[key];
        var credited := status.value == "completed" && o.paymentMethod != "COD_UNPAID";
        var c, n := Commission(o.totalAmount), NetAmount(o.totalAmount);
        && orders.Keys == old(orders).Keys
        && (forall k :: k in orders && k != key ==> orders[k] == old(orders)[k])
        && orders[key] == (if credited then o.(status := status.value, platformCommission := Some(c), netVendorEarnings := Some(n))
                           else o.(status := status.value))
        && credits == old(credits) + (if credited then [Credit(o.vendorId, n, c, key)] else [])
        && walletBalances == (if credited && o.vendorId in old(walletBalances)
                              then old(walletBalances)[o.vendorId := Some(WalletOrZero(old(walletBalances)[o.vendorId]) + n)]
                              else old(walletBalances)))
    {
      if !Filled(status) {
        return Some(BadRequest("status required"));
      }
      var key := ObjectIdOf(id);
      if key.None? {
        return Some(ServerError);
      }
      if key.value !in orders {
        return Some(NotFound);
      }
      orders := orders[key.value := orders[key.value].(status := status.value)];
      if status.value == "completed" {
        var order := orders[key.value];
        if order.paymentMethod != "COD_UNPAID" {
          var commissionAmount := Commission(order.totalAmount);
          var netAmount := NetAmount(order.totalAmount);
          if order.vendorId in walletBalances {
            walletBalances := walletBalances[order.vendorId := Some(WalletOrZero(walletBalances[order.vendorId]) + netAmount)];
          }
          credits := credits + [Credit(order.vendorId, netAmount, commissionAmount, key.value)];
          orders := orders[key.value := orders[key.value].(platformCommission := Some(commissionAmount),
                                                           netVendorEarnings := Some(netAmount))];
        }
      }
      return None;
    }
  }

  lemma {:induction false} LinesFewerThanItems(items: seq<Cart.CartItem>, products: map<string, OrderProduct>)
    ensures Lines(items, products).Ok? ==> |Lines(items, products).value| <= |items|
  {
    if items != [] {
      LinesFewerThanItems(items[..|items| - 1], products);
    }
  }

  lemma {:induction false} VendorsFewerThanLines(ls: seq<LineItem>)
    ensures |VendorsOf(ls)| <= |ls|
  {
    if ls != [] {
      VendorsFewerThanLines(ls[..|ls| - 1]);
    }
  }

  /** A checkout creates at most one order per cart item. */
  lemma DraftsFewerThanItems(items: seq<Cart.CartItem>, products: map<string, OrderProduct>)
    ensures Lines(items, products).Ok? ==>
      forall u, p, a, loc :: |Drafts(Lines(items, products).value, u, p, a, loc)| <= |items|
  {
    LinesFewerThanItems(items, products);
    if Lines(items, products).Ok? {
      VendorsFewerThanLines(Lines(items, products).value);
    }
  }
}
