/**
 * The cart state of the storefront's client, frontend/src/state/CartContext.jsx: the
 * `items` it holds, how each action replaces them, and the `total` it derives.
 */
module CartContext {
  import opened Wrappers
  import opened Seqs
  import opened ProductModel
  import opened Cart

  /**
   * What a line's `product` field holds on the client: a populated product (as the cart
   * load returns it), a bare id (as the add, update and remove answers return it), or
   * null (a populated reference to a product that no longer exists).
   */
  datatype ProductRef = Populated(id: ProductId, price: int) | Ref(id: ProductId) | Dangling

  /** A line as the client sees it; `None` is a missing field. */
  datatype ClientLine = ClientLine(lineId: Option<nat>, product: ProductRef, price: Option<int>, quantity: Option<int>)

  /** The `items` state: normally an array of lines, but not checked to be one. */
  datatype Items = Lines(lines: seq<ClientLine>) | NotArray

  /** A server line as the client receives it in an answer to add, update or remove. */
  function ToClient(l: CartLine): ClientLine
  {
    ClientLine(None, Ref(l.product), Some(l.price), Some(l.quantity))
  }

  function FromServer(lines: seq<CartLine>): (r: seq<ClientLine>)
    ensures |r| == |lines|
    ensures forall k :: 0 <= k < |r| ==> r[k] == ToClient(lines[k])
  {
    if lines == [] then [] else [ToClient(lines[0])] + FromServer(lines[1..])
  }

  /** `(i?.price || 0) * (i?.quantity || 0)`: a missing price or quantity counts as 0. */
  function LineAmount(l: ClientLine): int
  {
    OrZero(l.price) * OrZero(l.quantity)
  }

  function SumAmounts(lines: seq<ClientLine>): int
  {
    if lines == [] then 0 else LineAmount(lines[0]) + SumAmounts(lines[1..])
  }

  /** `total`: the sum of the line amounts, or 0 when `items` is not an array. */
  function Total(items: Items): int
  {
    if items.NotArray? then 0 else SumAmounts(items.lines)
  }

  lemma {:induction false} SumAmountsAppend(a: seq<ClientLine>, b: seq<ClientLine>)
    ensures SumAmounts(a + b) == SumAmounts(a) + SumAmounts(b)
  {
    if a == [] {
      assert a + b == b;
    } else {
      assert (a + b)[1..] == a[1..] + b;
      SumAmountsAppend(a[1..], b);
    }
  }

  /**
   * The total is 0 for an empty cart and for a value that is not an array, and a line
   * with a missing price or quantity adds nothing to it.
   */
  lemma TotalIgnoresIncompleteLines(a: seq<ClientLine>, l: ClientLine, b: seq<ClientLine>)
    requires l.price.None? || l.quantity.None? || l.price == Some(0) || l.quantity == Some(0)
    ensures Total(Lines(a + [l] + b)) == Total(Lines(a + b))
    ensures Total(Lines([])) == 0 && Total(NotArray) == 0
  {
    SumAmountsAppend(a + [l], b);
    SumAmountsAppend(a, [l]);
    SumAmountsAppend(a, b);
    assert SumAmounts([l]) == 0 by {
      assert [l][1..] == [];
    }
  }

  /** The client total of a cart the server sent equals the server cart's price × quantity sum. */
  lemma {:induction false} TotalOfServerCart(lines: seq<CartLine>)
    ensures Total(Lines(FromServer(lines))) == LinesTotal(lines)
  {
    if lines != [] {
      TotalOfServerCart(lines[1..]);
      assert FromServer(lines)[1..] == FromServer(lines[1..]);
    }
  }

  /** The client cart state. */
  class CartProvider {
    var items: Items

    constructor ()
      ensures items == Lines([])
    {
      items := Lines([]);
    }

    /**
     * The effect run when the token changes: signed out, the cart is emptied; signed in,
     * the fetched cart replaces it when it is an array, and a failed fetch or any other
     * answer empties it.
     */
    method OnToken(signedIn: bool, fetched: Option<Items>)
      modifies this
      ensures !signedIn ==> items == Lines([])
      ensures signedIn && fetched.Some? && fetched.value.Lines? ==> items == fetched.value
      ensures signedIn && (fetched.None? || fetched.value.NotArray?) ==> items == Lines([])
    {
      if !signedIn {
        items := Lines([]);
        return;
      }
      if fetched.Some? && fetched.value.Lines? {
        items := fetched.value;
      } else {
        items := Lines([]);
      }
    }

    /**
     * `add`: the quantity defaults to 1 before it is sent; on success the items become the
     * cart the server answers with, and the total rises by the added amount at the line's
     * price; on failure nothing changes.
     */
    method Add(server: UserCart, products: seq<Product>, pid: ProductId, quantity: Option<int>) returns (ok: bool)
      modifies this, server
      ensures FindById(products, pid).Some? ==>
                server.lines == AddLine(old(server.lines), pid, quantity.GetOr(1), FindById(products, pid).value.price)
      ensures ok <==> FindById(products, pid).Some?
      ensures ok ==> items == Lines(FromServer(server.lines))
      ensures ok ==>
                var i := LineIndex(old(server.lines), pid);
                Total(items) == LinesTotal(old(server.lines))
                  + (if i >= 0 then old(server.lines)[i].price else FindById(products, pid).value.price) * quantity.GetOr(1)
      ensures !ok ==> items == old(items) && server.lines == old(server.lines)
    {
      var r := server.AddToCart(products, pid, Some(quantity.GetOr(1)));
      ok := r.Ok?;
      if ok {
        items := Lines(FromServer(r.value));
        TotalOfServerCart(r.value);
        AddRaisesTotal(old(server.lines), pid, quantity.GetOr(1), FindById(products, pid).value.price);
      }
    }

    /** `update`: on success the items become the server's cart; on failure nothing changes. */
    method Update(server: UserCart, pid: ProductId, quantity: int) returns (ok: bool)
      modifies this, server
      ensures ok <==> HasLine(old(server.lines), pid)
      ensures ok ==> server.lines == SetQuantity(old(server.lines), pid, quantity).value
                     && items == Lines(FromServer(server.lines))
      ensures !ok ==> items == old(items) && server.lines == old(server.lines)
    {
      var r := server.UpdateCartItem(pid, quantity);
      ok := r.Ok?;
      if ok {
        items := Lines(FromServer(r.value));
      }
    }

    /** `remove`: the items become the server's cart without the product's line. */
    method Remove(server: UserCart, pid: ProductId)
      modifies this, server
      ensures server.lines == RemoveLines(old(server.lines), pid)
      ensures items == Lines(FromServer(server.lines))
    {
      var r := server.RemoveFromCart(pid);
      items := Lines(FromServer(r));
    }
  }
}
