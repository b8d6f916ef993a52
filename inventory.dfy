/**
 * The product store and the three handlers of backend/src/controllers/productController.js
 * that change it: `createProduct`, `deleteProduct` and `purchaseProduct`.
 */
module Inventory {
  import opened Wrappers
  import opened Seqs
  import opened ProductModel

  /** What the stock check of a purchase decides. */
  datatype Decision = Rejected | Sold(newStock: int)

  /**
   * The stock rule of `purchaseProduct` as written: the only refusal is a stock below the
   * quantity; otherwise the quantity is subtracted, whatever its sign.
   */
  function PurchaseDecision(stock: int, quantity: int): (d: Decision)
    ensures d.Rejected? <==> stock < quantity
    ensures d.Sold? ==> d.newStock >= 0 && d.newStock + quantity == stock
  {
    if stock < quantity then Rejected else Sold(stock - quantity)
  }

  /** A refused purchase changes nothing, and no purchase can drive the stock below 0. */
  lemma PurchaseNeverOversells(stock: int, quantity: int)
    requires stock >= 0
    ensures PurchaseDecision(stock, quantity).Sold? ==> 0 <= PurchaseDecision(stock, quantity).newStock
    ensures 0 <= quantity ==> PurchaseDecision(stock, quantity).Sold? ==> PurchaseDecision(stock, quantity).newStock <= stock
    ensures quantity <= stock ==> PurchaseDecision(stock, quantity).Sold?
  {
  }

  /** As written, a negative quantity passes the check and raises the stock. */
  lemma NegativeQuantityRestocks(stock: int, quantity: int)
    requires 0 <= stock && quantity < 0
    ensures PurchaseDecision(stock, quantity).Sold?
    ensures PurchaseDecision(stock, quantity).newStock > stock
  {
  }

  /** The evidently intended rule: only a positive quantity no larger than the stock is sold. */
  function CheckedPurchaseDecision(stock: int, quantity: int): (d: Decision)
    ensures d.Sold? <==> 1 <= quantity <= stock
    ensures d.Sold? ==> d.newStock + quantity == stock
  {
    if quantity < 1 || stock < quantity then Rejected else Sold(stock - quantity)
  }

  /** Under the intended rule a sale always lowers the stock and never below 0. */
  lemma CheckedPurchaseLowersStock(stock: int, quantity: int)
    ensures CheckedPurchaseDecision(stock, quantity).Sold? ==>
              0 <= CheckedPurchaseDecision(stock, quantity).newStock < stock
    ensures 1 <= quantity ==> CheckedPurchaseDecision(stock, quantity) == PurchaseDecision(stock, quantity)
  {
  }

  /** The store with the product whose id is `id` removed, the others kept in order. */
  function RemoveId(products: seq<Product>, id: ProductId): (r: seq<Product>)
    ensures forall p :: p in r <==> p in products && p.id != id
    ensures IsSubsequence(r, products)
  {
    FilterIsSubsequence(products, (p: Product) => p.id != id);
    Filter(products, (p: Product) => p.id != id)
  }

  /** With unique ids, removing an id that is present removes exactly one product. */
  lemma {:induction false} RemoveIdRemovesOne(products: seq<Product>, id: ProductId)
    requires UniqueIds(products)
    requires exists k :: 0 <= k < |products| && products[k].id == id
    ensures |RemoveId(products, id)| == |products| - 1
  {
    var keep := (p: Product) => p.id != id;
    assert products == [products[0]] + products[1..];
    if products[0].id == id {
      forall p | p in products[1..] ensures keep(p) {
        var k :| 0 <= k < |products[1..]| && products[1..][k] == p;
        assert products[k + 1] == p;
      }
      FilterAll(products[1..], keep);
    } else {
      var k :| 0 <= k < |products| && products[k].id == id;
      assert products[1..][k - 1].id == id;
      RemoveIdRemovesOne(products[1..], id);
    }
  }

  /** Appending a valid product whose id is above every stored id keeps the ids unique and below the next one. */
  lemma AppendFresh(products: seq<Product>, p: Product, nextId: nat)
    requires UniqueIds(products)
    requires forall k :: 0 <= k < |products| ==> ProductModel.Valid(products[k]) && products[k].id < nextId
    requires ProductModel.Valid(p) && p.id == nextId
    ensures UniqueIds(products + [p])
    ensures forall k :: 0 <= k < |products + [p]| ==>
              ProductModel.Valid((products + [p])[k]) && (products + [p])[k].id < nextId + 1
  {
  }

  /** Filtering a store with unique ids keeps the ids unique. */
  lemma {:induction false} FilterKeepsUniqueIds(products: seq<Product>, keep: Product -> bool)
    requires UniqueIds(products)
    ensures UniqueIds(Filter(products, keep))
  {
    if products != [] {
      var rest := products[1..];
      FilterKeepsUniqueIds(rest, keep);
      var fr := Filter(rest, keep);
      forall j | 0 <= j < |fr| ensures fr[j].id != products[0].id {
        assert fr[j] in fr;
        var k :| 0 <= k < |rest| && rest[k] == fr[j];
        assert products[k + 1] == fr[j];
      }
    }
  }

  datatype DeleteOutcome = Deleted | DeleteNotFound | Forbidden
  datatype PurchaseOutcome = Purchased(remaining: int) | PurchaseNotFound | InsufficientStock

  /** The HTTP status of each answer; a refused create reaches the error handler, which answers 500. */
  function CreateStatus(r: Result<Product, seq<string>>): int { if r.Ok? then 201 else 500 }
  function DeleteStatus(o: DeleteOutcome): int
  {
    match o
    case Deleted => 200
    case DeleteNotFound => 404
    case Forbidden => 403
  }
  function PurchaseStatus(o: PurchaseOutcome): int
  {
    match o
    case Purchased(_) => 200
    case PurchaseNotFound => 404
    case InsufficientStock => 400
  }

  /** The products collection. */
  class ProductTable {
    var products: seq<Product>
    var nextId: ProductId

    /** Every stored product satisfies the schema, ids are unique and below the next id. */
    ghost predicate Valid()
      reads this
    {
      && UniqueIds(products)
      && forall k :: 0 <= k < |products| ==> ProductModel.Valid(products[k]) && products[k].id < nextId
    }

    constructor ()
      ensures Valid() && products == [] && nextId == 0
    {
      products := [];
      nextId := 0;
    }

    /**
     * `createProduct`: the body's fields with the owner set to the requester (or none); a
     * body the schema refuses leaves the store unchanged.
     */
    method Create(d: ProductDraft, requester: Option<UserId>, now: int) returns (r: Result<Product, seq<string>>)
      requires Valid()
      modifies this
      ensures Valid()
      ensures r == ProductModel.Create(d, old(nextId), requester, now)
      ensures r.Ok? ==> r.value.owner == requester && products == old(products) + [r.value] && nextId == old(nextId) + 1
      ensures r.Err? ==> products == old(products) && nextId == old(nextId)
    {
      r := ProductModel.Create(d, nextId, requester, now);
      if r.Ok? {
        var p := r.value;
        AppendFresh(products, p, nextId);
        products := products + [p];
        nextId := nextId + 1;
      }
    }

    /**
     * `deleteProduct`: 404 for an unknown id, 403 unless the product has an owner and it is
     * the requester, and otherwise that product and only it leaves the store.
     */
    method Delete(id: ProductId, requester: UserId) returns (o: DeleteOutcome)
      requires Valid()
      modifies this
      ensures Valid() && nextId == old(nextId)
      ensures o == DeleteNotFound <==> FindById(old(products), id).None?
      ensures o == Forbidden <==>
                FindById(old(products), id).Some? && FindById(old(products), id).value.owner != Some(requester)
      ensures o != Deleted ==> products == old(products)
      ensures o == Deleted ==> products == RemoveId(old(products), id) && |products| == |old(products)| - 1
    {
      var found := FindById(products, id);
      if found.None? {
        return DeleteNotFound;
      }
      if found.value.owner != Some(requester) {
        return Forbidden;
      }
      RemoveIdRemovesOne(products, id);
      var kept := RemoveId(products, id);
      FilterKeepsUniqueIds(products, (p: Product) => p.id != id);
      products := kept;
      o := Deleted;
    }

    /**
     * `purchaseProduct`: the quantity defaults to 1; 404 for an unknown id, 400 when the
     * stock is below the quantity, and otherwise the stock drops by the quantity and
     * `remaining` is the new stock. The `timestamps` option sets the update time only when
     * the save changes the document, so a quantity of 0 keeps the old update time.
     */
    method Purchase(id: ProductId, quantity: Option<int>, now: int) returns (o: PurchaseOutcome)
      requires Valid()
      modifies this
      ensures Valid() && nextId == old(nextId) && |products| == |old(products)|
      ensures o == PurchaseNotFound <==> FindById(old(products), id).None?
      ensures o == InsufficientStock <==>
                FindById(old(products), id).Some? && FindById(old(products), id).value.stock < quantity.GetOr(1)
      ensures !o.Purchased? ==> products == old(products)
      ensures o.Purchased? ==>
                var i := IndexOfId(old(products), id);
                var p := old(products)[i];
                && products == old(products)[i := p.(stock := p.stock - quantity.GetOr(1),
                                                     updatedAt := if quantity.GetOr(1) == 0 then p.updatedAt else now)]
                && o.remaining == products[i].stock
                && PurchaseDecision(p.stock, quantity.GetOr(1)) == Sold(o.remaining)
    {
      var i := IndexOfId(products, id);
      assert FindById(products, id) == if i == -1 then None else Some(products[i]);
      if i == -1 {
        return PurchaseNotFound;
      }
      var p := products[i];
      var q := quantity.GetOr(1);
      var d := PurchaseDecision(p.stock, q);
      if d.Rejected? {
        return InsufficientStock;
      }
      var stamp := if q == 0 then p.updatedAt else now;
      var sold := p.(stock := d.newStock, updatedAt := stamp);
      products := products[i := sold];
      o := Purchased(d.newStock);
    }
  }
}
