/**
 * A user's cart and the three handlers of backend/src/controllers/cartController.js that
 * edit it: `addToCart`, `updateCartItem` and `removeFromCart`.
 */
module Cart {
  import opened Wrappers
  import opened Seqs
  import opened ProductModel

  /** A cart line: the product, how many, and the price when it was first added. */
  datatype CartLine = CartLine(product: ProductId, quantity: int, price: int)

  /** The invariant the handlers keep: at most one line per product. */
  predicate OneLinePerProduct(lines: seq<CartLine>)
  {
    forall i, j :: 0 <= i < j < |lines| ==> lines[i].product != lines[j].product
  }

  predicate HasLine(lines: seq<CartLine>, pid: ProductId)
  {
    exists k :: 0 <= k < |lines| && lines[k].product == pid
  }

  /** `findIndex` on the product id: the first matching line, or -1. */
  function LineIndex(lines: seq<CartLine>, pid: ProductId): (i: int)
    ensures -1 <= i < |lines|
    ensures i >= 0 ==> lines[i].product == pid && forall k :: 0 <= k < i ==> lines[k].product != pid
    ensures i == -1 <==> !HasLine(lines, pid)
  {
    if lines == [] then -1
    else if lines[0].product == pid then 0
    else
      var i := LineIndex(lines[1..], pid);
      if i == -1 then -1 else i + 1
  }

  /** The cart after adding `quantity` of `pid` at the current `price`. */
  function AddLine(lines: seq<CartLine>, pid: ProductId, quantity: int, price: int): (r: seq<CartLine>)
  {
    var i := LineIndex(lines, pid);
    if i >= 0 then lines[i := lines[i].(quantity := lines[i].quantity + quantity)]
    else lines + [CartLine(pid, quantity, price)]
  }

  /** The cart with the line for `pid` set to `quantity`, or `None` when there is no such line. */
  function SetQuantity(lines: seq<CartLine>, pid: ProductId, quantity: int): (r: Option<seq<CartLine>>)
  {
    var i := LineIndex(lines, pid);
    if i == -1 then None else Some(lines[i := lines[i].(quantity := quantity)])
  }

  /** The cart without any line for `pid`. */
  function RemoveLines(lines: seq<CartLine>, pid: ProductId): (r: seq<CartLine>)
  {
    Filter(lines, (l: CartLine) => l.product != pid)
  }

  /** Adding a product already in the cart raises that line's quantity and adds no line. */
  lemma AddMergesRepeat(lines: seq<CartLine>, pid: ProductId, quantity: int, price: int)
    requires HasLine(lines, pid)
    ensures var r := AddLine(lines, pid, quantity, price); var i := LineIndex(lines, pid);
      && |r| == |lines|
      && r[i].product == pid && r[i].quantity == lines[i].quantity + quantity && r[i].price == lines[i].price
      && forall k :: 0 <= k < |lines| && k != i ==> r[k] == lines[k]
  {
  }

  /** Adding a new product appends one line with the given quantity and the current price. */
  lemma AddAppendsNew(lines: seq<CartLine>, pid: ProductId, quantity: int, price: int)
    requires !HasLine(lines, pid)
    ensures var r := AddLine(lines, pid, quantity, price);
      && |r| == |lines| + 1 && r[..|lines|] == lines && r[|lines|] == CartLine(pid, quantity, price)
  {
  }

  /** Adding keeps at most one line per product. */
  lemma AddKeepsOneLinePerProduct(lines: seq<CartLine>, pid: ProductId, quantity: int, price: int)
    requires OneLinePerProduct(lines)
    ensures OneLinePerProduct(AddLine(lines, pid, quantity, price))
  {
    var r := AddLine(lines, pid, quantity, price);
    if !HasLine(lines, pid) {
      forall i, j | 0 <= i < j < |r| ensures r[i].product != r[j].product {
        if j == |lines| {
          assert r[i] == lines[i];
        }
      }
    }
  }

  /**
   * Two adds of a product not yet in the cart leave one line holding both quantities at
   * the price of the first add.
   */
  lemma AddTwiceMerges(lines: seq<CartLine>, pid: ProductId, q1: int, p1: int, q2: int, p2: int)
    requires !HasLine(lines, pid)
    ensures AddLine(AddLine(lines, pid, q1, p1), pid, q2, p2) == lines + [CartLine(pid, q1 + q2, p1)]
  {
    var once := AddLine(lines, pid, q1, p1);
    assert once[|lines|].product == pid;
    assert LineIndex(once, pid) == |lines| by {
      forall k | 0 <= k < |lines| ensures once[k].product != pid {
        assert once[k] == lines[k];
      }
    }
  }

  /** Updating fails exactly on a product without a line; otherwise only that line's quantity changes. */
  lemma SetQuantityChangesOneLine(lines: seq<CartLine>, pid: ProductId, quantity: int)
    ensures SetQuantity(lines, pid, quantity).None? <==> !HasLine(lines, pid)
    ensures SetQuantity(lines, pid, quantity).Some? ==>
      var r := SetQuantity(lines, pid, quantity).value; var i := LineIndex(lines, pid);
      && |r| == |lines| && r[i] == CartLine(pid, quantity, lines[i].price)
      && forall k :: 0 <= k < |lines| && k != i ==> r[k] == lines[k]
  {
  }

  /** Setting a quantity keeps at most one line per product. */
  lemma SetQuantityKeepsOneLinePerProduct(lines: seq<CartLine>, pid: ProductId, quantity: int)
    requires OneLinePerProduct(lines) && SetQuantity(lines, pid, quantity).Some?
    ensures OneLinePerProduct(SetQuantity(lines, pid, quantity).value)
  {
    var r := SetQuantity(lines, pid, quantity).value;
    forall i, j | 0 <= i < j < |r| ensures r[i].product != r[j].product {
      assert r[i].product == lines[i].product && r[j].product == lines[j].product;
    }
  }

  /**
   * Removing drops every line of the product, keeps the other lines in their order,
   * leaves a cart without the product as it is, and keeps at most one line per product.
   */
  lemma RemoveLinesProperties(lines: seq<CartLine>, pid: ProductId)
    ensures var r := RemoveLines(lines, pid);
      && !HasLine(r, pid)
      && (forall l :: l in lines && l.product != pid ==> l in r)
      && IsSubsequence(r, lines)
      && (!HasLine(lines, pid) ==> r == lines)
  {
    var keep := (l: CartLine) => l.product != pid;
    var r := RemoveLines(lines, pid);
    FilterIsSubsequence(lines, keep);
    forall k | 0 <= k < |r| ensures r[k].product != pid {
      assert r[k] in r;
    }
    if !HasLine(lines, pid) {
      forall l | l in lines ensures keep(l) {
        var k :| 0 <= k < |lines| && lines[k] == l;
      }
      FilterAll(lines, keep);
    }
  }

  /** Filtering keeps at most one line per product. */
  lemma {:induction false} FilterKeepsOneLinePerProduct(lines: seq<CartLine>, keep: CartLine -> bool)
    requires OneLinePerProduct(lines)
    ensures OneLinePerProduct(Filter(lines, keep))
  {
    if lines != [] {
      var rest := lines[1..];
      FilterKeepsOneLinePerProduct(rest, keep);
      var fr := Filter(rest, keep);
      forall j | 0 <= j < |fr| ensures fr[j].product != lines[0].product {
        assert fr[j] in fr;
        var k :| 0 <= k < |rest| && rest[k] == fr[j];
        assert lines[k + 1] == fr[j];
      }
    }
  }

  /** Removing twice is removing once. */
  lemma RemoveLinesIdempotent(lines: seq<CartLine>, pid: ProductId)
    ensures RemoveLines(RemoveLines(lines, pid), pid) == RemoveLines(lines, pid)
  {
    FilterIdempotent(lines, (l: CartLine) => l.product != pid);
  }

  /** The total of the cart at the snapshotted prices. */
  function LinesTotal(lines: seq<CartLine>): int
  {
    if lines == [] then 0 else lines[0].price * lines[0].quantity + LinesTotal(lines[1..])
  }

  lemma {:induction false} LinesTotalAppend(a: seq<CartLine>, b: seq<CartLine>)
    ensures LinesTotal(a + b) == LinesTotal(a) + LinesTotal(b)
  {
    if a == [] {
      assert a + b == b;
    } else {
      assert (a + b)[1..] == a[1..] + b;
      LinesTotalAppend(a[1..], b);
    }
  }

  lemma {:induction false} LinesTotalUpdate(lines: seq<CartLine>, i: nat, l: CartLine)
    requires i < |lines|
    ensures LinesTotal(lines[i := l]) == LinesTotal(lines) - lines[i].price * lines[i].quantity + l.price * l.quantity
  {
    if i > 0 {
      assert lines[i := l][1..] == lines[1..][i - 1 := l];
      LinesTotalUpdate(lines[1..], i - 1, l);
    } else {
      assert lines[i := l][1..] == lines[1..];
    }
  }

  /**
   * Adding raises the total by the quantity times the line's price: the snapshotted price
   * of an existing line, the current price of a new one.
   */
  lemma AddRaisesTotal(lines: seq<CartLine>, pid: ProductId, quantity: int, price: int)
    ensures var i := LineIndex(lines, pid);
      LinesTotal(AddLine(lines, pid, quantity, price))
        == LinesTotal(lines) + (if i >= 0 then lines[i].price else price) * quantity
  {
    var i := LineIndex(lines, pid);
    var r := AddLine(lines, pid, quantity, price);
    if i >= 0 {
      var l := lines[i].(quantity := lines[i].quantity + quantity);
      assert r == lines[i := l];
      LinesTotalUpdate(lines, i, l);
      assert l.price * l.quantity == lines[i].price * lines[i].quantity + lines[i].price * quantity;
    } else {
      var l := CartLine(pid, quantity, price);
      assert r == lines + [l];
      LinesTotalAppend(lines, [l]);
      assert LinesTotal([l]) == price * quantity by {
        assert [l][1..] == [];
      }
    }
  }

  /** The cart of one user, as `user.cart`. */
  class UserCart {
    var lines: seq<CartLine>

    ghost predicate Valid()
      reads this
    {
      OneLinePerProduct(lines)
    }

    constructor ()
      ensures lines == [] && Valid()
    {
      lines := [];
    }

    /** `user.cart.findIndex(i => i.product === pid)`. */
    method FindLine(pid: ProductId) returns (i: int)
      ensures i == LineIndex(lines, pid)
    {
      i := 0;
      while i < |lines|
        invariant 0 <= i <= |lines|
        invariant forall k :: 0 <= k < i ==> lines[k].product != pid
      {
        if lines[i].product == pid {
          return;
        }
        i := i + 1;
      }
      i := -1;
    }

    /**
     * `addToCart`: 404 and no change for an unknown product; otherwise the quantity
     * (default 1) is merged into the product's line or appended as a new line priced at
     * the product's current price, and the answer (201) is the new cart.
     */
    method AddToCart(products: seq<Product>, pid: ProductId, quantity: Option<int>) returns (r: Result<seq<CartLine>, int>)
      modifies this
      ensures FindById(products, pid).None? ==> r == Err(404) && lines == old(lines)
      ensures FindById(products, pid).Some? ==>
                && lines == AddLine(old(lines), pid, quantity.GetOr(1), FindById(products, pid).value.price)
                && r == Ok(lines)
      ensures old(Valid()) ==> Valid()
    {
      var found := FindById(products, pid);
      if found.None? {
        return Err(404);
      }
      if Valid() {
        AddKeepsOneLinePerProduct(lines, pid, quantity.GetOr(1), found.value.price);
      }
      var i := FindLine(pid);
      if i > -1 {
        lines := lines[i := lines[i].(quantity := lines[i].quantity + quantity.GetOr(1))];
      } else {
        lines := lines + [CartLine(pid, quantity.GetOr(1), found.value.price)];
      }
      r := Ok(lines);
    }

    /**
     * `updateCartItem`: 404 and no change when the product has no line; otherwise that
     * line's quantity becomes exactly `quantity`, with no range check.
     */
    method UpdateCartItem(pid: ProductId, quantity: int) returns (r: Result<seq<CartLine>, int>)
      modifies this
      ensures SetQuantity(old(lines), pid, quantity).None? ==> r == Err(404) && lines == old(lines)
      ensures SetQuantity(old(lines), pid, quantity).Some? ==>
                lines == SetQuantity(old(lines), pid, quantity).value && r == Ok(lines)
      ensures old(Valid()) ==> Valid()
    {
      var i := FindLine(pid);
      if i == -1 {
        return Err(404);
      }
      if Valid() {
        SetQuantityKeepsOneLinePerProduct(lines, pid, quantity);
      }
      lines := lines[i := lines[i].(quantity := quantity)];
      r := Ok(lines);
    }

    /** `removeFromCart`: every line of the product goes; the answer is the new cart. */
    method RemoveFromCart(pid: ProductId) returns (r: seq<CartLine>)
      modifies this
      ensures lines == RemoveLines(old(lines), pid) && r == lines
      ensures old(Valid()) ==> Valid()
    {
      lines := RemoveLines(lines, pid);
      r := lines;
      if old(Valid()) {
        FilterKeepsOneLinePerProduct(old(lines), (l: CartLine) => l.product != pid);
      }
    }
  }
}
