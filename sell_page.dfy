/**
 * The listing form of the client, frontend/src/pages/SellPage.jsx: the form state,
 * `onChange`, and the create payload `submit` builds from the form.
 */
module SellPage {
  import opened Wrappers
  import opened Seqs
  import opened Text
  import opened ProductModel

  /** A form field holds the text typed into it, except the stock, which starts as the number 1. */
  datatype FieldValue = Typed(text: string) | Number(n: int)

  datatype SellForm = SellForm(
    name: string, model: string, colorway: string, description: string,
    price: string, brand: string, stock: FieldValue, condition: string, category: string,
    releaseDate: string, images: string, sizes: string)

  datatype Field =
    NameField | ModelField | ColorwayField | DescriptionField | PriceField | BrandField
    | StockField | ConditionField | CategoryField | ReleaseDateField | ImagesField | SizesField

  const InitialForm: SellForm :=
    SellForm("", "", "", "", "", "nike", Number(1), "new", "lifestyle", "", "", "")

  /** The value a field holds. */
  function Get(f: SellForm, field: Field): FieldValue
  {
    match field
    case NameField => Typed(f.name)
    case ModelField => Typed(f.model)
    case ColorwayField => Typed(f.colorway)
    case DescriptionField => Typed(f.description)
    case PriceField => Typed(f.price)
    case BrandField => Typed(f.brand)
    case StockField => f.stock
    case ConditionField => Typed(f.condition)
    case CategoryField => Typed(f.category)
    case ReleaseDateField => Typed(f.releaseDate)
    case ImagesField => Typed(f.images)
    case SizesField => Typed(f.sizes)
  }

  /** `onChange`: a copy of the form with the named field set to the typed text. */
  function OnChange(f: SellForm, field: Field, value: string): SellForm
  {
    match field
    case NameField => f.(name := value)
    case ModelField => f.(model := value)
    case ColorwayField => f.(colorway := value)
    case DescriptionField => f.(description := value)
    case PriceField => f.(price := value)
    case BrandField => f.(brand := value)
    case StockField => f.(stock := Typed(value))
    case ConditionField => f.(condition := value)
    case CategoryField => f.(category := value)
    case ReleaseDateField => f.(releaseDate := value)
    case ImagesField => f.(images := value)
    case SizesField => f.(sizes := value)
  }

  /** `onChange` sets the named field to the typed text and leaves every other field as it was. */
  lemma OnChangeTouchesOneField(f: SellForm, field: Field, value: string)
    ensures Get(OnChange(f, field, value), field) == Typed(value)
    ensures forall other: Field :: other != field ==> Get(OnChange(f, field, value), other) == Get(f, other)
  {
  }

  function TrimEach(parts: seq<string>): (r: seq<string>)
    ensures |r| == |parts|
    ensures forall k :: 0 <= k < |r| ==> r[k] == Trim(parts[k])
  {
    if parts == [] then [] else [Trim(parts[0])] + TrimEach(parts[1..])
  }

  function NonEmptyTest(): string -> bool
  {
    (x: string) => x != []
  }

  /** `s.split(',').map(s => s.trim())`. */
  function Pieces(s: string): (r: seq<string>)
    ensures |r| == Occurrences(s, ',') + 1
    ensures forall x :: x in r ==> ',' !in x
  {
    var parts := Split(s, ',');
    SplitCount(s, ',');
    TrimmedPiecesKeepAbsent(parts, ',');
    TrimEach(parts)
  }

  lemma TrimmedPiecesKeepAbsent(parts: seq<string>, c: char)
    requires forall x :: x in parts ==> c !in x
    ensures forall x :: x in TrimEach(parts) ==> c !in x
  {
    var t := TrimEach(parts);
    forall k | 0 <= k < |t| ensures c !in t[k] {
      assert parts[k] in parts;
      TrimKeepsAbsent(parts[k], c);
    }
  }

  /** `s ? s.split(',').map(s => s.trim()).filter(Boolean) : []`. */
  function CommaList(s: string): (r: seq<string>)
    ensures forall x :: x in r ==> x != [] && IsTrimmed(x)
  {
    if s == [] then []
    else Filter(Pieces(s), NonEmptyTest())
  }

  /**
   * The entries are the trimmed pieces between the commas, in input order, without the
   * empty ones, and there are at most one more of them than there are commas.
   */
  lemma CommaListEntries(s: string)
    ensures IsSubsequence(CommaList(s), Pieces(s))
    ensures forall x :: x in Pieces(s) && x != [] ==> x in CommaList(s)
    ensures forall x :: x in CommaList(s) ==> ',' !in x
    ensures |CommaList(s)| <= Occurrences(s, ',') + 1
  {
    if s == [] {
      assert IndexOf(s, ',') == 0;
      assert Split(s, ',') == [[]];
      assert Pieces(s) == [Trim([])];
    } else {
      FilterIsSubsequence(Pieces(s), NonEmptyTest());
    }
  }

  /** Entries that are non-empty, trimmed and comma-free survive a join and re-parse unchanged. */
  lemma CommaListRoundTrip(xs: seq<string>)
    requires xs != []
    requires forall x :: x in xs ==> x != [] && IsTrimmed(x) && ',' !in x
    ensures CommaList(Join(xs, ',')) == xs
  {
    SplitJoin(xs, ',');
    forall k | 0 <= k < |xs| ensures Trim(xs[k]) == xs[k] {
      assert xs[k] in xs;
      TrimOfTrimmed(xs[k]);
    }
    assert TrimEach(xs) == xs;
    assert Pieces(Join(xs, ',')) == xs;
    FilterAll(xs, NonEmptyTest());
    assert xs[0] in xs;
    assert Join(xs, ',') != [] by {
      JoinStartsWithFirst(xs, ',');
    }
  }

  lemma JoinStartsWithFirst(xs: seq<string>, sep: char)
    requires xs != []
    ensures |Join(xs, sep)| >= |xs[0]|
  {
  }

  /** `Number(form.stock || 0)`: a blank stock field is 0; `toNumber` stands for `Number` on text. */
  function StockOf(v: FieldValue, toNumber: string -> int): int
  {
    match v
    case Number(n) => n
    case Typed(t) => if t == [] then 0 else toNumber(t)
  }

  /** The body `submit` posts to create the listing, with `toNumber` for `Number` on text. */
  function Payload(f: SellForm, toNumber: string -> int): ProductDraft
  {
    ProductDraft(
      Some(f.name), Some(f.model), Some(f.colorway), Some(f.description),
      Some(toNumber(f.price)), Some(f.brand), Some(StockOf(f.stock, toNumber)),
      Some(f.condition), if f.releaseDate == [] then None else Some(f.releaseDate),
      CommaList(f.images), CommaList(f.sizes),
      Some(f.category))
  }

  /**
   * A blank stock is sent as 0, a blank release date is left out, blank image and size
   * lists are empty, and the form's choices are sent as they are.
   */
  lemma PayloadDefaults(f: SellForm, toNumber: string -> int)
    ensures var d := Payload(f, toNumber);
      && (f.stock == Typed([]) ==> d.stock == Some(0))
      && (f.releaseDate == [] <==> d.releaseDate.None?)
      && (f.images == [] ==> d.images == []) && (f.sizes == [] ==> d.sizes == [])
      && d.brand == Some(f.brand) && d.condition == Some(f.condition) && d.category == Some(f.category)
  {
  }

  /** The draft the initial form posts once the text fields and the price are filled. */
  function InitialDraft(name: string, model: string, colorway: string, description: string, price: int): ProductDraft
  {
    ProductDraft(Some(name), Some(model), Some(colorway), Some(description), Some(price),
                 Some("nike"), Some(1), Some("new"), None, [], [], Some("lifestyle"))
  }

  lemma InitialPayload(name: string, model: string, colorway: string, description: string,
                       price: string, toNumber: string -> int)
    ensures Payload(InitialForm.(name := name, model := model, colorway := colorway,
                                 description := description, price := price), toNumber)
            == InitialDraft(name, model, colorway, description, toNumber(price))
  {
  }

  lemma InitialDraftHasNoViolations(name: string, model: string, colorway: string, description: string, price: int)
    requires Trim(name) != [] && Trim(model) != [] && colorway != [] && description != [] && price >= 0
    ensures Violations(InitialDraft(name, model, colorway, description, price)) == []
  {
    var d := InitialDraft(name, model, colorway, description, price);
    assert ParseBrand("nike") == Some(Nike) by { ParseBrandName(Nike); }
    assert ParseCondition("new") == Some(New) && ParseCategory("lifestyle") == Some(Lifestyle) by {
      ParseConditionAndCategoryNames(New, Lifestyle);
    }
    assert !RequiredMissing(d.name, true) && !RequiredMissing(d.model, true);
    assert !RequiredMissing(d.colorway, false) && !RequiredMissing(d.description, false);
    assert Acceptable(d);
  }

  /**
   * From the initial form, once the four text fields are filled and the price is a
   * non-negative number, the store accepts the listing: brand nike, one pair in stock,
   * condition new, category lifestyle, no images or sizes.
   */
  lemma InitialFormIsAccepted(name: string, model: string, colorway: string, description: string,
                              price: string, toNumber: string -> int, id: ProductId, owner: Option<UserId>, now: int)
    requires Trim(name) != [] && Trim(model) != [] && colorway != [] && description != []
    requires toNumber(price) >= 0
    ensures var f := InitialForm.(name := name, model := model, colorway := colorway,
                                  description := description, price := price);
            var r := Create(Payload(f, toNumber), id, owner, now);
      && r.Ok? && r.value.brand == Nike && r.value.stock == 1 && r.value.condition == New
      && r.value.category == Lifestyle && r.value.images == [] && r.value.sizes == []
      && r.value.releaseDate.None?
  {
    var d := InitialDraft(name, model, colorway, description, toNumber(price));
    InitialPayload(name, model, colorway, description, price, toNumber);
    InitialDraftHasNoViolations(name, model, colorway, description, toNumber(price));
    CreateAppliesDefaults(d, id, owner, now);
    assert ParseBrand("nike") == Some(Nike) by { ParseBrandName(Nike); }
  }
}
