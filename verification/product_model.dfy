/** The product record of the catalog and the validation the document
    schema applies when a product is created: required fields, the category
    and badge enumerations, the minimums on price and stock, trimming of the
    name, and the defaults of description, badge, stock and inStock. */
module ProductModel {
  import opened Base

  datatype Category = Serums | Moisturizers | Cleansers | Treatments | EyeCare | Masks

  function CategoryName(c: Category): string {
    match c
    case Serums => "Serums"
    case Moisturizers => "Moisturizers"
    case Cleansers => "Cleansers"
    case Treatments => "Treatments"
    case EyeCare => "Eye Care"
    case Masks => "Masks"
  }

  /** The enumeration check: only the six listed spellings are accepted. */
  function ParseCategory(s: string): (r: Option<Category>)
    ensures r.Some? ==> CategoryName(r.value) == s
    ensures forall c: Category :: CategoryName(c) == s ==> r == Some(c)
  {
    if s == "Serums" then Some(Serums)
    else if s == "Moisturizers" then Some(Moisturizers)
    else if s == "Cleansers" then Some(Cleansers)
    else if s == "Treatments" then Some(Treatments)
    else if s == "Eye Care" then Some(EyeCare)
    else if s == "Masks" then Some(Masks)
    else None
  }

  datatype Badge = BestSeller | New | Limited | Popular

  function BadgeName(b: Badge): string {
    match b
    case BestSeller => "Best Seller"
    case New => "New"
    case Limited => "Limited"
    case Popular => "Popular"
  }

  function ParseBadge(s: string): (r: Option<Badge>)
    ensures r.Some? ==> BadgeName(r.value) == s
    ensures forall b: Badge :: BadgeName(b) == s ==> r == Some(b)
  {
    if s == "Best Seller" then Some(BestSeller)
    else if s == "New" then Some(New)
    else if s == "Limited" then Some(Limited)
    else if s == "Popular" then Some(Popular)
    else None
  }

  /** The white space and line terminators that JavaScript's `trim` removes. */
  predicate IsSpace(c: char) {
    || c == '\t' || c == '\n' || c == '\U{B}' || c == '\U{C}' || c == '\r' || c == ' '
    || c == '\U{A0}' || c == '\U{1680}' || ('\U{2000}' <= c <= '\U{200A}')
    || c == '\U{2028}' || c == '\U{2029}' || c == '\U{202F}' || c == '\U{205F}'
    || c == '\U{3000}' || c == '\U{FEFF}'
  }

  function TrimStart(s: string): (r: string)
    ensures |r| <= |s| && r == s[|s| - |r|..]
    ensures r == [] || !IsSpace(r[0])
    ensures forall i :: 0 <= i < |s| - |r| ==> IsSpace(s[i])
  {
    if s != [] && IsSpace(s[0]) then TrimStart(s[1..]) else s
  }

  function TrimEnd(s: string): (r: string)
    ensures |r| <= |s| && r == s[..|r|]
    ensures r == [] || !IsSpace(r[|r| - 1])
    ensures forall i :: |r| <= i < |s| ==> IsSpace(s[i])
  {
    if s != [] && IsSpace(s[|s| - 1]) then TrimEnd(s[..|s| - 1]) else s
  }

  /** `String.prototype.trim`: the longest infix with no white space at
      either end, obtained by dropping white space only. */
  function Trim(s: string): (r: string)
    ensures exists i, j :: 0 <= i <= j <= |s| && r == s[i..j]
              && (forall k :: 0 <= k < i ==> IsSpace(s[k]))
              && (forall k :: j <= k < |s| ==> IsSpace(s[k]))
    ensures r == [] || (!IsSpace(r[0]) && !IsSpace(r[|r| - 1]))
  {
    var t := TrimStart(s);
    var r := TrimEnd(t);
    assert r == s[|s| - |t|..|s| - |t| + |r|];
    r
  }

  /** Trimming twice changes nothing more than trimming once. */
  lemma TrimIdempotent(s: string)
    ensures Trim(Trim(s)) == Trim(s)
  {
    var r := Trim(s);
    if r != [] {
      assert TrimStart(r) == r;
      assert TrimEnd(r) == r;
    }
  }

  /** A string that is nothing but white space trims to the empty string,
      and one that holds anything else does not. */
  lemma TrimEmptyIffBlank(s: string)
    ensures Trim(s) == [] <==> forall k :: 0 <= k < |s| ==> IsSpace(s[k])
  {
    var t := TrimStart(s);
    if Trim(s) == [] {
      assert TrimEnd(t) == [];
      assert t == [];
    } else {
      var r := Trim(s);
      assert !IsSpace(r[0]);
      assert r[0] == s[|s| - |t|];
    }
  }

  /** What a request supplies for a new product: every field may be absent. */
  datatype ProductInput = ProductInput(
    name: Option<string>,
    category: Option<string>,
    price: Option<int>,
    image: Option<string>,
    description: Option<string>,
    badge: Option<string>,
    stock: Option<int>,
    inStock: Option<bool>)

  /** A stored product. The badge `None` is the schema's `null`. */
  datatype Product = Product(
    name: string,
    category: Category,
    price: int,
    image: string,
    description: string,
    badge: Option<Badge>,
    stock: int,
    inStock: bool)

  datatype ProductError =
    | NameRequired | CategoryRequired | CategoryNotInEnum | PriceRequired | PriceNegative
    | ImageRequired | BadgeNotInEnum | StockNegative

  /** Every product the schema can store satisfies these. */
  ghost predicate ValidProduct(p: Product) {
    && p.name != "" && Trim(p.name) == p.name
    && p.price >= 0
    && p.image != ""
    && p.stock >= 0
  }

  /** All validation failures of an input, as the schema reports them
      together. A required string path is satisfied only by a non-empty
      string (the name after trimming); an enumeration or minimum is checked
      only on a value that is present. */
  function Errors(input: ProductInput): set<ProductError> {
    var name := if input.name.Some? then Some(Trim(input.name.value)) else None;
    (if !Truthy(name) then {NameRequired} else {})
    + (if !Truthy(input.category) then {CategoryRequired}
       else if ParseCategory(input.category.value).None? then {CategoryNotInEnum}
       else {})
    + (if input.price.None? then {PriceRequired}
       else if input.price.value < 0 then {PriceNegative}
       else {})
    + (if !Truthy(input.image) then {ImageRequired} else {})
    + (if input.badge.Some? && ParseBadge(input.badge.value).None? then {BadgeNotInEnum} else {})
    + (if input.stock.Some? && input.stock.value < 0 then {StockNegative} else {})
  }

  /** Cast, default, trim, then validate, as `Product.create` does. */
  function Create(input: ProductInput): (r: Result<Product, set<ProductError>>)
    ensures r.Err? <==> Errors(input) != {}
    ensures r.Err? ==> r.error == Errors(input)
    ensures r.Ok? ==> ValidProduct(r.value)
    ensures r.Ok? ==> r.value.name == Trim(input.name.value)
    ensures r.Ok? ==> Some(r.value.category) == ParseCategory(input.category.value)
    ensures r.Ok? ==> Some(r.value.price) == input.price && Some(r.value.image) == input.image
    ensures r.Ok? ==> r.value.description == (if input.description.Some? then input.description.value else "")
    ensures r.Ok? ==> (input.badge.None? <==> r.value.badge.None?)
    ensures r.Ok? && input.badge.Some? ==> BadgeName(r.value.badge.value) == input.badge.value
    ensures r.Ok? ==> r.value.stock == (if input.stock.Some? then input.stock.value else 0)
    ensures r.Ok? ==> r.value.inStock == (input.inStock != Some(false))
  {
    var errors := Errors(input);
    if errors != {} then Err(errors)
    else
      var name := Trim(input.name.value);
      TrimIdempotent(input.name.value);
      Ok(Product(
        name,
        ParseCategory(input.category.value).value,
        input.price.value,
        input.image.value,
        if input.description.Some? then input.description.value else "",
        if input.badge.Some? then ParseBadge(input.badge.value) else None,
        if input.stock.Some? then input.stock.value else 0,
        if input.inStock.Some? then input.inStock.value else true))
  }
}
