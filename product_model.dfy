/**
 * The Product record of backend/src/models/Product.js: its fields, the three enumerations,
 * the defaults the schema fills in, and the checks the schema runs when a product is created.
 */
module ProductModel {
  import opened Wrappers
  import opened Text

  type ProductId = nat
  type UserId = nat

  datatype Brand = Nike | Adidas | Puma | NewBalance | UnderArmour
  datatype Condition = New | UsedLikeNew | UsedGood | UsedFair
  datatype Category = Running | Basketball | Lifestyle | Skateboarding | Training

  /** The five brands in the order the schema's enum lists them. */
  const AllBrands: seq<Brand> := [Nike, Adidas, Puma, NewBalance, UnderArmour]

  function BrandName(b: Brand): string
  {
    match b
    case Nike => "nike"
    case Adidas => "adidas"
    case Puma => "puma"
    case NewBalance => "newbalance"
    case UnderArmour => "underarmour"
  }

  /** The enum check: only the exact lower-case names are accepted. */
  function ParseBrand(s: string): (r: Option<Brand>)
    ensures r.Some? ==> BrandName(r.value) == s
  {
    if s == "nike" then Some(Nike)
    else if s == "adidas" then Some(Adidas)
    else if s == "puma" then Some(Puma)
    else if s == "newbalance" then Some(NewBalance)
    else if s == "underarmour" then Some(UnderArmour)
    else None
  }

  lemma ParseBrandName(b: Brand)
    ensures ParseBrand(BrandName(b)) == Some(b)
  {
  }

  /** Brand names are lower-case words with no separator or whitespace in them. */
  lemma BrandNameShape(b: Brand)
    ensures |BrandName(b)| > 0 && HasNoUpper(BrandName(b)) && IsTrimmed(BrandName(b))
    ensures ',' !in BrandName(b)
  {
  }

  function ConditionName(c: Condition): string
  {
    match c
    case New => "new"
    case UsedLikeNew => "used-like-new"
    case UsedGood => "used-good"
    case UsedFair => "used-fair"
  }

  function ParseCondition(s: string): (r: Option<Condition>)
    ensures r.Some? ==> ConditionName(r.value) == s
  {
    if s == "new" then Some(New)
    else if s == "used-like-new" then Some(UsedLikeNew)
    else if s == "used-good" then Some(UsedGood)
    else if s == "used-fair" then Some(UsedFair)
    else None
  }

  function CategoryName(c: Category): string
  {
    match c
    case Running => "running"
    case Basketball => "basketball"
    case Lifestyle => "lifestyle"
    case Skateboarding => "skateboarding"
    case Training => "training"
  }

  function ParseCategory(s: string): (r: Option<Category>)
    ensures r.Some? ==> CategoryName(r.value) == s
  {
    if s == "running" then Some(Running)
    else if s == "basketball" then Some(Basketball)
    else if s == "lifestyle" then Some(Lifestyle)
    else if s == "skateboarding" then Some(Skateboarding)
    else if s == "training" then Some(Training)
    else None
  }

  lemma ParseConditionAndCategoryNames(c: Condition, k: Category)
    ensures ParseCondition(ConditionName(c)) == Some(c)
    ensures ParseCategory(CategoryName(k)) == Some(k)
  {
  }

  /** A stored product. Timestamps and the release date are opaque values. */
  datatype Product = Product(
    id: ProductId,
    name: string,
    model: string,
    colorway: string,
    description: string,
    price: int,
    brand: Brand,
    owner: Option<UserId>,
    stock: int,
    condition: Condition,
    releaseDate: Option<string>,
    images: seq<string>,
    sizes: seq<string>,
    category: Category,
    createdAt: int,
    updatedAt: int)

  /** What the schema guarantees of every stored product. */
  predicate Valid(p: Product)
  {
    && p.name != [] && IsTrimmed(p.name)
    && p.model != [] && IsTrimmed(p.model)
    && p.colorway != [] && p.description != []
    && p.price >= 0
    && p.stock >= 0
  }

  /** The fields of a create request; `None` is a field the body leaves out. */
  datatype ProductDraft = ProductDraft(
    name: Option<string>,
    model: Option<string>,
    colorway: Option<string>,
    description: Option<string>,
    price: Option<int>,
    brand: Option<string>,
    stock: Option<int>,
    condition: Option<string>,
    releaseDate: Option<string>,
    images: seq<string>,
    sizes: seq<string>,
    category: Option<string>)

  /** A required string field is missing when absent or empty (after the trim setter, where there is one). */
  predicate RequiredMissing(v: Option<string>, trim: bool)
  {
    v.None? || (if trim then Trim(v.value) else v.value) == []
  }

  /**
   * Every required field is present (name and model non-blank after trimming), the price
   * and the stock are not negative, and brand, condition and category are allowed values.
   */
  predicate Acceptable(d: ProductDraft)
  {
    && !RequiredMissing(d.name, true) && !RequiredMissing(d.model, true)
    && !RequiredMissing(d.colorway, false) && !RequiredMissing(d.description, false)
    && d.price.Some? && d.price.value >= 0
    && d.brand.Some? && ParseBrand(d.brand.value).Some?
    && (d.stock.Some? ==> d.stock.value >= 0)
    && (d.condition.Some? ==> ParseCondition(d.condition.value).Some?)
    && (d.category.Some? ==> ParseCategory(d.category.value).Some?)
  }

  /** The paths whose validation fails, in schema order. */
  function Violations(d: ProductDraft): (r: seq<string>)
    ensures r == [] <==> Acceptable(d)
  {
    var name := if RequiredMissing(d.name, true) then ["name"] else [];
    var model := if RequiredMissing(d.model, true) then ["model"] else [];
    var colorway := if RequiredMissing(d.colorway, false) then ["colorway"] else [];
    var description := if RequiredMissing(d.description, false) then ["description"] else [];
    var price := if d.price.None? || d.price.value < 0 then ["price"] else [];
    var brand := if d.brand.None? || ParseBrand(d.brand.value).None? then ["brand"] else [];
    var stock := if d.stock.Some? && d.stock.value < 0 then ["stock"] else [];
    var condition := if d.condition.Some? && ParseCondition(d.condition.value).None? then ["condition"] else [];
    var category := if d.category.Some? && ParseCategory(d.category.value).None? then ["category"] else [];
    var r := name + model + colorway + description + price + brand + stock + condition + category;
    assert |r| == |name| + |model| + |colorway| + |description| + |price| + |brand| + |stock| + |condition| + |category|;
    r
  }

  /**
   * `Product.create`: applies the trim setters and the defaults (stock 0, condition new,
   * category lifestyle), validates, and stamps both timestamps with `now`.
   */
  function Create(d: ProductDraft, id: ProductId, owner: Option<UserId>, now: int): (r: Result<Product, seq<string>>)
    ensures r.Ok? <==> Violations(d) == []
    ensures r.Err? ==> r.error == Violations(d) && r.error != []
    ensures r.Ok? ==> Valid(r.value) && r.value.id == id && r.value.owner == owner
    ensures r.Ok? ==> r.value.createdAt == now && r.value.updatedAt == now
  {
    var errors := Violations(d);
    if errors != [] then Err(errors)
    else
      Ok(Product(
        id, Trim(d.name.value), Trim(d.model.value), d.colorway.value, d.description.value,
        d.price.value, ParseBrand(d.brand.value).value, owner, d.stock.GetOr(0),
        if d.condition.Some? then ParseCondition(d.condition.value).value else New,
        d.releaseDate, d.images, d.sizes,
        if d.category.Some? then ParseCategory(d.category.value).value else Lifestyle,
        now, now))
  }

  /** The defaults of the schema: stock 0, condition new, category lifestyle. */
  lemma CreateAppliesDefaults(d: ProductDraft, id: ProductId, owner: Option<UserId>, now: int)
    requires Create(d, id, owner, now).Ok?
    ensures var p := Create(d, id, owner, now).value;
      && (d.stock.None? ==> p.stock == 0)
      && (d.condition.None? ==> p.condition == New)
      && (d.category.None? ==> p.category == Lifestyle)
      && (d.stock.Some? ==> p.stock == d.stock.value)
      && ConditionName(p.condition) == d.condition.GetOr("new")
      && CategoryName(p.category) == d.category.GetOr("lifestyle")
  {
  }

  /** Name and model are stored trimmed; the other text fields as given. */
  lemma CreateTrimsNameAndModel(d: ProductDraft, id: ProductId, owner: Option<UserId>, now: int)
    requires Create(d, id, owner, now).Ok?
    ensures var p := Create(d, id, owner, now).value;
      && p.name == Trim(d.name.value) && p.model == Trim(d.model.value)
      && p.colorway == d.colorway.value && p.description == d.description.value
      && p.price == d.price.value && BrandName(p.brand) == d.brand.value
  {
  }

  /** Position of the product with this id (the first one, as `findById` finds it), or -1. */
  function IndexOfId(products: seq<Product>, id: ProductId): (i: int)
    ensures -1 <= i < |products|
    ensures i >= 0 ==> products[i].id == id
    ensures i >= 0 ==> forall k :: 0 <= k < i ==> products[k].id != id
    ensures i == -1 <==> forall k :: 0 <= k < |products| ==> products[k].id != id
  {
    if products == [] then -1
    else if products[0].id == id then 0
    else
      var i := IndexOfId(products[1..], id);
      if i == -1 then -1 else i + 1
  }

  /** `Product.findById`. */
  function FindById(products: seq<Product>, id: ProductId): (r: Option<Product>)
    ensures r.Some? <==> exists k :: 0 <= k < |products| && products[k].id == id
    ensures r.Some? ==> r.value in products && r.value.id == id
  {
    var i := IndexOfId(products, id);
    if i == -1 then None else Some(products[i])
  }

  /** No two stored products share an id. */
  predicate UniqueIds(products: seq<Product>)
  {
    forall i, j :: 0 <= i < j < |products| ==> products[i].id != products[j].id
  }
}
