/** The shopping cart of routes/cart.js: one `carts` document per user holding a list
    of line items, changed in place by add, update, remove and clear, and priced
    against the products collection when it is read. */
module Cart {
  import opened Common
  import Sequences

  datatype CartItem = CartItem(productId: string, quantity: int)

  /** The fields of a product document the cart reads. */
  datatype CartProduct = CartProduct(name: string, price: Option<real>, image: string, unit: string, vendorId: string)

  /** A line of the cart as `GET /:userId` returns it. */
  datatype CartLine = CartLine(productId: string, product: CartProduct, quantity: int)

  // ---------------------------------------------------------------------------
  // Specification functions

  /** `items.findIndex(i => i.productId === productId)`: the first position holding
      that product, or -1. */
  function FindIndex(items: seq<CartItem>, productId: string): (k: int)
    ensures -1 <= k < |items|
    ensures k >= 0 ==> items[k].productId == productId
    ensures forall j :: 0 <= j < |items| && (k < 0 || j < k) ==> items[j].productId != productId
  {
    if items == [] then -1
    else if items[0].productId == productId then 0
    else
      var k := FindIndex(items[1..], productId);
      if k < 0 then -1 else k + 1
  }

  /** `parseInt(quantity) || 1`, given the result of `parseInt` (None for NaN). */
  function AddQuantity(parsed: Option<int>): int {
    if parsed.Some? && parsed.value != 0 then parsed.value else 1
  }

  /** The item list after adding `qty` of `productId`. */
  function AddLine(items: seq<CartItem>, productId: string, qty: int): seq<CartItem> {
    var k := FindIndex(items, productId);
    if k >= 0 then items[k := items[k].(quantity := items[k].quantity + qty)]
    else items + [CartItem(productId, qty)]
  }

  /** The item list after `"items.$.quantity": qty` on the first item holding the product. */
  function UpdateLine(items: seq<CartItem>, productId: string, qty: int): seq<CartItem> {
    var k := FindIndex(items, productId);
    if k >= 0 then items[k := items[k].(quantity := qty)] else items
  }

  /** The item list after `$pull: { items: { productId } }`. */
  function RemoveLines(items: seq<CartItem>, productId: string): seq<CartItem> {
    Sequences.FilterMap(items, (i: CartItem) => i.productId != productId, (i: CartItem) => i)
  }

  function ProductIds(items: seq<CartItem>): seq<string> {
    seq(|items|, j requires 0 <= j < |items| => items[j].productId)
  }

  lemma InProductIds(items: seq<CartItem>, productId: string)
    ensures productId in ProductIds(items) <==> exists j :: 0 <= j < |items| && items[j].productId == productId
    ensures productId in ProductIds(items) <==> FindIndex(items, productId) >= 0
  {
    if exists j :: 0 <= j < |items| && items[j].productId == productId {
      var j :| 0 <= j < |items| && items[j].productId == productId;
      assert ProductIds(items)[j] == productId;
    }
  }

  /** No product appears on two lines of the cart. */
  predicate UniqueProducts(items: seq<CartItem>) {
    forall j, k :: 0 <= j < k < |items| ==> items[j].productId != items[k].productId
  }

  /** The product an item names, if its id is a valid ObjectId of an existing product. */
  function LookupProduct(products: map<string, CartProduct>, productId: string): Option<CartProduct> {
    match ObjectIdOf(productId)
    case None => None
    case Some(key) => Get(products, key)
  }

  /** The priced lines of the cart: items whose product was not found are left out. */
  function CartLines(items: seq<CartItem>, products: map<string, CartProduct>): seq<CartLine> {
    if items == [] then []
    else
      var last := items[|items| - 1];
      CartLines(items[..|items| - 1], products) + ItemLines(last, products)
  }

  /** The line one item contributes: none when its product is not found. */
  function ItemLines(item: CartItem, products: map<string, CartProduct>): seq<CartLine> {
    match LookupProduct(products, item.productId)
    case None => []
    case Some(p) => [CartLine(item.productId, p, item.quantity)]
  }

  function LineAmount(l: CartLine): real {
    NumberOrZero(l.product.price) * (l.quantity as real)
  }

  /** The running total of the read: `(parseFloat(price) || 0) * quantity` summed over
      the items whose product was found. */
  function CartTotal(items: seq<CartItem>, products: map<string, CartProduct>): real {
    if items == [] then 0.0
    else
      var last := items[|items| - 1];
      CartTotal(items[..|items| - 1], products) + ItemAmount(last, products)
  }

  /** The amount one item adds to the total: 0 when its product is not found. */
  function ItemAmount(item: CartItem, products: map<string, CartProduct>): real {
    match LookupProduct(products, item.productId)
    case None => 0.0
    case Some(p) => NumberOrZero(p.price) * (item.quantity as real)
  }

  function LinesTotal(lines: seq<CartLine>): real {
    if lines == [] then 0.0 else LinesTotal(lines[..|lines| - 1]) + LineAmount(lines[|lines| - 1])
  }

  function ItemsOf(carts: map<string, seq<CartItem>>, userId: string): seq<CartItem> {
    if userId in carts then carts[userId] else []
  }

  // ---------------------------------------------------------------------------
  // Properties of the item-list operations

  /** Adding a product already in the cart raises the quantity of its first line by
      `qty` and changes nothing else; the cart keeps its length. */
  lemma AddLineExisting(items: seq<CartItem>, productId: string, qty: int, k: nat)
    requires k < |items| && items[k].productId == productId
    requires forall j :: 0 <= j < k ==> items[j].productId != productId
    ensures |AddLine(items, productId, qty)| == |items|
    ensures AddLine(items, productId, qty)[k] == CartItem(productId, items[k].quantity + qty)
    ensures forall j :: 0 <= j < |items| && j != k ==> AddLine(items, productId, qty)[j] == items[j]
  {
    assert FindIndex(items, productId) == k;
  }

  /** Adding a product not yet in the cart appends exactly one line at the end. */
  lemma AddLineNew(items: seq<CartItem>, productId: string, qty: int)
    requires productId !in ProductIds(items)
    ensures AddLine(items, productId, qty) == items + [CartItem(productId, qty)]
  {
    InProductIds(items, productId);
  }

  /** Adding keeps the product ids of a cart distinct, and afterwards the product is in the cart. */
  lemma AddLineKeepsUnique(items: seq<CartItem>, productId: string, qty: int)
    requires UniqueProducts(items)
    ensures UniqueProducts(AddLine(items, productId, qty))
    ensures productId in ProductIds(AddLine(items, productId, qty))
  {
    var r := AddLine(items, productId, qty);
    var k := FindIndex(items, productId);
    if k < 0 {
      assert r == items + [CartItem(productId, qty)];
      assert ProductIds(r)[|items|] == productId;
    } else {
      assert ProductIds(r)[k] == productId;
    }
  }

  /** Updating changes at most the quantity of the first line with that product: the
      product ids, in order, stay as they were, every other line is left as it was, and a
      quantity below 1 is stored as given. */
  lemma UpdateLineKeepsProducts(items: seq<CartItem>, productId: string, qty: int)
    ensures |UpdateLine(items, productId, qty)| == |items|
    ensures ProductIds(UpdateLine(items, productId, qty)) == ProductIds(items)
    ensures productId in ProductIds(items) ==>
      UpdateLine(items, productId, qty)[FindIndex(items, productId)] ==
        items[FindIndex(items, productId)].(quantity := qty)
    ensures forall j :: 0 <= j < |items| && j != FindIndex(items, productId) ==>
      UpdateLine(items, productId, qty)[j] == items[j]
    ensures productId !in ProductIds(items) ==> UpdateLine(items, productId, qty) == items
  {
    InProductIds(items, productId);
  }

  /** Removing drops every line with that product and keeps the others, in order. */
  lemma RemoveLinesKeepsOthers(items: seq<CartItem>, productId: string) returns (idx: seq<nat>)
    ensures productId !in ProductIds(RemoveLines(items, productId))
    ensures |idx| == |RemoveLines(items, productId)|
    ensures forall k :: 0 <= k < |idx| ==> idx[k] < |items| && RemoveLines(items, productId)[k] == items[idx[k]]
    ensures forall k, l :: 0 <= k < l < |idx| ==> idx[k] < idx[l]
    ensures forall i :: 0 <= i < |items| ==> (i in idx <==> items[i].productId != productId)
  {
    var keep := (i: CartItem) => i.productId != productId;
    idx := Sequences.FilterMapKeepsOrder(items, keep, (i: CartItem) => i);
    var r := RemoveLines(items, productId);
    forall k | 0 <= k < |r| ensures r[k].productId != productId {
      assert r[k] == items[idx[k]];
      assert idx[k] in idx;
    }
    InProductIds(r, productId);
  }

  /** Removing a product just added to a cart that did not hold it gives back the cart. */
  lemma RemoveUndoesAdd(items: seq<CartItem>, productId: string, qty: int)
    requires productId !in ProductIds(items)
    ensures RemoveLines(AddLine(items, productId, qty), productId) == items
  {
    AddLineNew(items, productId, qty);
    var keep := (i: CartItem) => i.productId != productId;
    var id := (i: CartItem) => i;
    Sequences.FilterMapConcat(items, [CartItem(productId, qty)], keep, id);
    forall i | 0 <= i < |items| ensures keep(items[i]) && id(items[i]) == items[i] {
      assert ProductIds(items)[i] == items[i].productId;
    }
    Sequences.FilterMapKeepsAll(items, keep, id);
    assert [CartItem(productId, qty)][1..] == [];
  }

  // ---------------------------------------------------------------------------
  // Properties of the priced read

  lemma {:induction false} CartLinesConcat(a: seq<CartItem>, b: seq<CartItem>, products: map<string, CartProduct>)
    ensures CartLines(a + b, products) == CartLines(a, products) + CartLines(b, products)
    ensures CartTotal(a + b, products) == CartTotal(a, products) + CartTotal(b, products)
  {
    if b != [] {
      var b' := b[..|b| - 1];
      assert (a + b)[..|a + b| - 1] == a + b';
      assert (a + b)[|a + b| - 1] == b[|b| - 1];
      CartLinesConcat(a, b', products);
    } else {
      assert a + b == a;
    }
  }

  /** An item whose product is missing or whose id is not an ObjectId contributes
      neither a line nor an amount: the read is the same without it. */
  lemma MissingProductIgnored(items: seq<CartItem>, i: nat, products: map<string, CartProduct>)
    requires i < |items| && LookupProduct(products, items[i].productId).None?
    ensures CartLines(items[..i] + items[i + 1..], products) == CartLines(items, products)
    ensures CartTotal(items[..i] + items[i + 1..], products) == CartTotal(items, products)
  {
    var pre, x, post := items[..i], items[i], items[i + 1..];
    assert items == (pre + [x]) + post;
    assert CartLines(pre + [x], products) == CartLines(pre, products) &&
           CartTotal(pre + [x], products) == CartTotal(pre, products) by {
      CartLinesConcat(pre, [x], products);
      SingleItem(x, products);
    }
    CartLinesConcat(pre + [x], post, products);
    CartLinesConcat(pre, post, products);
  }

  lemma SingleItem(x: CartItem, products: map<string, CartProduct>)
    ensures CartLines([x], products) == ItemLines(x, products)
    ensures CartTotal([x], products) == ItemAmount(x, products)
  {
    assert [x][..0] == [];
  }

  /** An item whose product exists contributes its line, priced as the product says. */
  lemma FoundProductListed(item: CartItem, products: map<string, CartProduct>)
    requires LookupProduct(products, item.productId).Some?
    ensures CartLines([item], products) == [CartLine(item.productId, LookupProduct(products, item.productId).value, item.quantity)]
    ensures CartTotal([item], products) == NumberOrZero(LookupProduct(products, item.productId).value.price) * (item.quantity as real)
  {
    assert [item][..0] == [];
  }

  /** The returned total is the sum of the amounts of the returned lines. */
  lemma {:induction false} CartTotalIsLinesTotal(items: seq<CartItem>, products: map<string, CartProduct>)
    ensures CartTotal(items, products) == LinesTotal(CartLines(items, products))
  {
    if items != [] {
      var init := items[..|items| - 1];
      var last := items[|items| - 1];
      CartTotalIsLinesTotal(init, products);
      var ls := CartLines(init, products);
      match LookupProduct(products, last.productId)
      case None =>
        assert CartLines(items, products) == ls + [];
        assert ls + [] == ls;
      case Some(p) =>
        var l := CartLine(last.productId, p, last.quantity);
        assert (ls + [l])[..|ls + [l]| - 1] == ls;
    }
  }

  // ---------------------------------------------------------------------------
  // The carts collection

  class CartStore {
    var carts: map<string, seq<CartItem>>

    constructor()
      ensures carts == map[]
    {
      carts := map[];
    }

    /** `POST /add`: merge into the line holding the product or append a new line;
        the cart document is created when the user has none. */
    method Add(userId: Option<string>, productId: Option<string>, quantity: Option<int>) returns (err: Option<HttpError>)
      modifies this
      ensures !Filled(userId) || !Filled(productId) ==> err == Some(BadRequest("missing fields")) && carts == old(carts)
      ensures Filled(userId) && Filled(productId) ==> (err == None &&
        carts == old(carts)[userId.value := AddLine(ItemsOf(old(carts), userId.value), productId.value, AddQuantity(quantity))])
    {
      if !Filled(userId) || !Filled(productId) {
        return Some(BadRequest("missing fields"));
      }
      var qty := AddQuantity(quantity);
      var items := ItemsOf(carts, userId.value);
      var pid := productId.value;
      var i := 0;
      while i < |items| && items[i].productId != pid
        invariant 0 <= i <= |items|
        invariant forall j :: 0 <= j < i ==> items[j].productId != pid
      {
        i := i + 1;
      }
      if i < |items| {
        assert FindIndex(items, pid) == i;
        items := items[i := items[i].(quantity := items[i].quantity + qty)];
      } else {
        assert FindIndex(items, pid) == -1;
        items := items + [CartItem(pid, qty)];
      }
      carts := carts[userId.value := items];
      return None;
    }

    /** `PUT /update`: sets the quantity of the first line holding the product; a cart
        without such a line, or a user without a cart, is left alone. */
    method Update(userId: Option<string>, productId: Option<string>, qty: int) returns (err: Option<HttpError>)
      modifies this
      ensures !Filled(userId) || !Filled(productId) ==> err == Some(BadRequest("missing fields")) && carts == old(carts)
      ensures Filled(userId) && Filled(productId) ==> (err == None &&
        carts == if userId.value in old(carts)
                 then old(carts)[userId.value := UpdateLine(old(carts)[userId.value], productId.value, qty)]
                 else old(carts))
    {
      if !Filled(userId) || !Filled(productId) {
        return Some(BadRequest("missing fields"));
      }
      if userId.value in carts {
        var items := carts[userId.value];
        var k := FindIndex(items, productId.value);
        if k >= 0 {
          carts := carts[userId.value := items[k := items[k].(quantity := qty)]];
        }
      }
      return None;
    }

    /** `DELETE /remove`: pulls every line holding the product. */
    method Remove(userId: Option<string>, productId: Option<string>) returns (err: Option<HttpError>)
      modifies this
      ensures !Filled(userId) || !Filled(productId) ==> err == Some(BadRequest("missing fields")) && carts == old(carts)
      ensures Filled(userId) && Filled(productId) ==> (err == None &&
        carts == if userId.value in old(carts)
                 then old(carts)[userId.value := RemoveLines(old(carts)[userId.value], productId.value)]
                 else old(carts))
    {
      if !Filled(userId) || !Filled(productId) {
        return Some(BadRequest("missing fields"));
      }
      if userId.value in carts {
        carts := carts[userId.value := RemoveLines(carts[userId.value], productId.value)];
      }
      return None;
    }

    /** `DELETE /clear`: empties the user's cart, if there is one. */
    method Clear(userId: Option<string>) returns (err: Option<HttpError>)
      modifies this
      ensures !Filled(userId) ==> err == Some(BadRequest("user id required")) && carts == old(carts)
      ensures Filled(userId) ==> (err == None &&
        carts == if userId.value in old(carts) then old(carts)[userId.value := []] else old(carts))
    {
      if !Filled(userId) {
        return Some(BadRequest("user id required"));
      }
      if userId.value in carts {
        carts := carts[userId.value := []];
      }
      return None;
    }

    /** `GET /:userId`: the priced lines and their total, skipping items whose product
        id is not an ObjectId or names no product. A user without a cart gets no lines
        and a total of 0. */
    method Read(userId: string, products: map<string, CartProduct>) returns (lines: seq<CartLine>, total: real)
      ensures lines == CartLines(ItemsOf(carts, userId), products)
      ensures total == CartTotal(ItemsOf(carts, userId), products)
      ensures total == LinesTotal(lines)
    {
      var items := ItemsOf(carts, userId);
      lines, total := [], 0.0;
      for i := 0 to |items|
        invariant lines == CartLines(items[..i], products)
        invariant total == CartTotal(items[..i], products)
      {
        assert items[..i + 1][..i] == items[..i];
        var product := LookupProduct(products, items[i].productId);
        if product.Some? {
          total := total + NumberOrZero(product.value.price) * (items[i].quantity as real);
          lines := lines + [CartLine(items[i].productId, product.value, items[i].quantity)];
        }
      }
      assert items[..|items|] == items;
      CartTotalIsLinesTotal(items, products);
    }
  }
}
