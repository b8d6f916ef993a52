/**
 * The cart page, frontend/src/pages/CartPage.jsx: the figures it shows for each line and
 * for the cart, and `handleBuy`, which purchases a line and then removes it from the cart.
 */
module CartPage {
  import opened Wrappers
  import opened Seqs
  import opened ProductModel
  import opened Cart
  import opened CartContext
  import opened Inventory

  /** The product id of `item.product._id || item.product || item._id`, if any is present. */
  function PurchaseId(l: ClientLine): (r: Option<nat>)
    ensures l.product.Populated? || l.product.Ref? ==> r == Some(l.product.id)
    ensures l.product.Dangling? ==> r == l.lineId
  {
    match l.product
    case Populated(id, _) => Some(id)
    case Ref(id) => Some(id)
    case Dangling => l.lineId
  }

  /** `item.quantity || 1`: the line's quantity, or 1 when it is missing or 0. */
  function PurchaseQuantity(l: ClientLine): (q: int)
    ensures q != 0
    ensures l.quantity.Some? && l.quantity.value != 0 ==> q == l.quantity.value
  {
    if l.quantity.Some? && l.quantity.value != 0 then l.quantity.value else 1
  }

  /** `it.price || product.price || 0`: the snapshotted price, else the populated product's, else 0. */
  function LinePrice(l: ClientLine): (p: int)
    ensures l.price.Some? && l.price.value != 0 ==> p == l.price.value
    ensures (l.price.None? || l.price == Some(0)) && !l.product.Populated? ==> p == 0
  {
    if l.price.Some? && l.price.value != 0 then l.price.value
    else if l.product.Populated? then l.product.price
    else 0
  }

  /** A line's subtotal: its price times `it.quantity || 0`. */
  function Subtotal(l: ClientLine): int
  {
    LinePrice(l) * OrZero(l.quantity)
  }

  function SumSubtotals(lines: seq<ClientLine>): int
  {
    if lines == [] then 0 else Subtotal(lines[0]) + SumSubtotals(lines[1..])
  }

  /** The "Total Items" figure: the sum of the quantities, a missing one counting 0; 0 for a non-array. */
  function ItemCount(items: Items): int
  {
    if items.NotArray? then 0 else SumQuantities(items.lines)
  }

  function SumQuantities(lines: seq<ClientLine>): int
  {
    if lines == [] then 0 else OrZero(lines[0].quantity) + SumQuantities(lines[1..])
  }

  /**
   * When every line carries a non-zero price snapshot the subtotals add up to the grand
   * total; the total ignores the populated product's price that a subtotal falls back to.
   */
  lemma {:induction false} SubtotalsAddUpToTotal(lines: seq<ClientLine>)
    requires forall k :: 0 <= k < |lines| ==> lines[k].price.Some? && lines[k].price.value != 0
    ensures SumSubtotals(lines) == Total(Lines(lines))
  {
    if lines != [] {
      SubtotalsAddUpToTotal(lines[1..]);
    }
  }

  /** A line with no price snapshot but a populated product shows a subtotal the total leaves out. */
  lemma SubtotalWithoutSnapshot(id: ProductId, price: int, quantity: int)
    requires price != 0 && quantity != 0
    ensures var l := ClientLine(None, Populated(id, price), None, Some(quantity));
      Subtotal(l) == price * quantity && Total(Lines([l])) == 0
  {
    var l := ClientLine(None, Populated(id, price), None, Some(quantity));
    assert LinePrice(l) == price;
    assert LineAmount(l) == 0;
    assert [l][1..] == [];
    assert SumAmounts([l]) == LineAmount(l) + SumAmounts([]);
  }

  /** For a cart the server sent, the item count is the sum of the server lines' quantities. */
  lemma {:induction false} ItemCountOfServerCart(lines: seq<CartLine>)
    ensures ItemCount(Lines(FromServer(lines))) == SumOfQuantities(lines)
  {
    if lines != [] {
      assert FromServer(lines)[1..] == FromServer(lines[1..]);
      ItemCountOfServerCart(lines[1..]);
    }
  }

  function SumOfQuantities(lines: seq<CartLine>): int
  {
    if lines == [] then 0 else lines[0].quantity + SumOfQuantities(lines[1..])
  }

  datatype BuyOutcome = InvalidProduct | Bought(remaining: int) | PurchaseFailed(status: int)

  /**
   * `handleBuy`: without a product id nothing is requested; otherwise the product is
   * purchased with the line's quantity (or 1), and only after a successful purchase is its
   * line removed from the cart; a failed purchase leaves the cart as it was.
   */
  method HandleBuy(table: ProductTable, server: UserCart, client: CartProvider, l: ClientLine, now: int)
    returns (outcome: BuyOutcome)
    requires table.Valid()
    modifies table, server, client
    ensures table.Valid()
    ensures PurchaseId(l).None? ==>
              outcome == InvalidProduct
              && table.products == old(table.products) && server.lines == old(server.lines) && client.items == old(client.items)
    ensures PurchaseId(l).Some? ==>
              var id := PurchaseId(l).value;
              var found := FindById(old(table.products), id);
              && (outcome.Bought? <==> found.Some? && PurchaseQuantity(l) <= found.value.stock)
              && (outcome.Bought? ==>
                    && server.lines == RemoveLines(old(server.lines), id)
                    && client.items == Lines(FromServer(server.lines))
                    && outcome.remaining == found.value.stock - PurchaseQuantity(l)
                    && var i := IndexOfId(old(table.products), id);
                       table.products == old(table.products)[i := found.value.(stock := outcome.remaining, updatedAt := now)])
              && (!outcome.Bought? ==>
                    && outcome == PurchaseFailed(if found.None? then 404 else 400)
                    && table.products == old(table.products)
                    && server.lines == old(server.lines) && client.items == old(client.items))
  {
    var id := PurchaseId(l);
    if id.None? {
      return InvalidProduct;
    }
    var o := table.Purchase(id.value, Some(PurchaseQuantity(l)), now);
    if o.Purchased? {
      client.Remove(server, id.value);
      outcome := Bought(o.remaining);
    } else {
      outcome := PurchaseFailed(PurchaseStatus(o));
    }
  }
}
